/** The shared daily risk bucket of correlated symbols: what is pending, what is
    open and what was lost today, in R. */
module ClusterRisk {
  import opened Sums

  datatype Group = Group(name: string, symbols: set<string>, maxLossR: real, maxConcurrent: nat,
                         maxLosses: nat, afterLoss: real, minTrade: real)
  {
    ghost predicate Valid()
    {
      && 0.0 < maxLossR && 1 <= maxConcurrent && 1 <= maxLosses
      && 0.0 < afterLoss <= 1.0 && 0.0 < minTrade <= 1.0
    }
  }

  datatype ClusterState = ClusterState(
    day: int, pending: map<string, real>, open: map<string, real>, realized: real, losses: nat)

  function NewDay(day: int): ClusterState { ClusterState(day, map[], map[], 0.0, 0) }

  ghost function Used(s: ClusterState): real { s.realized + Sum(s.pending) + Sum(s.open) }

  function Concurrent(s: ClusterState): nat { |s.pending| + |s.open| }

  datatype Verdict = TooManyLosses | TooManyPositions | BudgetExhausted | Approved(planned: real)

  /** The verdict once the R in use is known. */
  function Verdicts(g: Group, s: ClusterState, used: real): Verdict
  {
    if s.losses >= g.maxLosses then TooManyLosses
    else if Concurrent(s) >= g.maxConcurrent then TooManyPositions
    else
      var planned := Min(if s.losses >= 1 then g.afterLoss else 1.0, g.maxLossR - used);
      if planned < g.minTrade then BudgetExhausted else Approved(planned)
  }

  ghost function Preview(g: Group, s: ClusterState): Verdict { Verdicts(g, s, Used(s)) }

  function Reserve(s: ClusterState, signalId: string, planned: real): ClusterState
  {
    s.(pending := s.pending[signalId := planned])
  }

  function Release(s: ClusterState, signalId: string): ClusterState
  {
    s.(pending := s.pending - {signalId})
  }

  function Held(m: map<string, real>, k: string): real { if k in m then m[k] else 1.0 }

  function Opened(s: ClusterState, signalId: string, tradeId: string): ClusterState
  {
    s.(pending := s.pending - {signalId},
       open := s.open[tradeId := Held(s.pending, signalId)])
  }

  /** Trade-local R turned into budget R; a win costs nothing. */
  function Damage(rr: real, riskR: real): real { if rr < 0.0 then -rr * riskR else 0.0 }

  function Closed(s: ClusterState, tradeId: string, rr: real): ClusterState
  {
    s.(open := s.open - {tradeId},
       realized := s.realized + Damage(rr, Held(s.open, tradeId)),
       losses := s.losses + if rr < 0.0 then 1 else 0)
  }

  // -------------------------------------------------------------------- laws

  /** An approval is exactly the case in which the whole planned risk still fits. */
  lemma ApprovalFitsTheBudget(g: Group, s: ClusterState)
    requires g.Valid()
    ensures Preview(g, s).Approved? <==>
            && s.losses < g.maxLosses
            && Concurrent(s) < g.maxConcurrent
            && Used(s) + g.minTrade <= g.maxLossR
            && (s.losses >= 1 ==> g.minTrade <= g.afterLoss)
    ensures Preview(g, s).Approved? ==>
            var p := Preview(g, s).planned;
            && 0.0 < p <= 1.0 && (s.losses >= 1 ==> p <= g.afterLoss)
            && Used(s) + p <= g.maxLossR && Concurrent(s) + 1 <= g.maxConcurrent
  {
  }

  /** Each refusal has its one reason, and an approval gives the most there is: the R allowed
      before or after the first loss, or all that is left of the budget. */
  lemma VerdictsAreExact(g: Group, s: ClusterState)
    ensures
      var most, left := if s.losses == 0 then 1.0 else g.afterLoss, g.maxLossR - Used(s);
      && (Preview(g, s).TooManyLosses? <==> s.losses >= g.maxLosses)
      && (Preview(g, s).TooManyPositions? <==> s.losses < g.maxLosses && |s.pending| + |s.open| >= g.maxConcurrent)
      && (Preview(g, s).Approved? ==>
            var r := Preview(g, s).planned;
            r <= most && r <= left && (r == most || r == left))
  {
  }

  /** On another day a group starts over: nothing lost, pending or open, and a whole R to
      take, or all of its budget; on its own day it stays as it is. */
  lemma EveryDayStartsOver(g: Group, states: map<string, ClusterState>, today: int)
    requires g.Valid() && g.minTrade <= g.maxLossR
    ensures g.name in states && states[g.name].day == today ==> StateOn(states, g.name, today) == states[g.name]
    ensures g.name !in states || states[g.name].day != today ==>
      var s := StateOn(states, g.name, today);
      && s.day == today && s.losses == 0 && s.realized == 0.0 && s.pending == map[] == s.open
      && Preview(g, s) == Approved(if g.maxLossR < 1.0 then g.maxLossR else 1.0)
  {
  }

  /** The group of a symbol is the first one that lists it. */
  lemma {:induction false} GroupIsTheFirst(groups: seq<Group>, symbol: string)
    ensures GroupOf(groups, symbol).None? <==> forall k :: 0 <= k < |groups| ==> symbol !in groups[k].symbols
    ensures GroupOf(groups, symbol).Some? ==>
      exists k :: 0 <= k < |groups| && GroupOf(groups, symbol) == Some(groups[k]) && symbol in groups[k].symbols
                  && forall j :: 0 <= j < k ==> symbol !in groups[j].symbols
  {
    if groups != [] {
      GroupIsTheFirst(groups[1..], symbol);
      assert forall k :: 0 < k < |groups| ==> groups[k] == groups[1..][k - 1];
      if symbol !in groups[0].symbols && GroupOf(groups, symbol).Some? {
        var k :| 0 <= k < |groups[1..]| && GroupOf(groups[1..], symbol) == Some(groups[1..][k])
                 && symbol in groups[1..][k].symbols && forall j :: 0 <= j < k ==> symbol !in groups[1..][j].symbols;
        assert groups[k + 1] == groups[1..][k];
      }
    }
  }

  lemma ReserveUses(s: ClusterState, id: string, planned: real)
    requires id !in s.pending
    ensures Used(Reserve(s, id, planned)) == Used(s) + planned
    ensures Concurrent(Reserve(s, id, planned)) == Concurrent(s) + 1
  {
    SumPut(s.pending, id, planned);
    SizePut(s.pending, id, planned);
  }

  lemma ReleaseFrees(s: ClusterState, id: string)
    ensures Used(Release(s, id)) == Used(s) - if id in s.pending then s.pending[id] else 0.0
    ensures Concurrent(Release(s, id)) == Concurrent(s) - if id in s.pending then 1 else 0
  {
    SumDrop(s.pending, id);
    SizeDrop(s.pending, id);
  }

  /** Opening a reserved trade moves its risk; opening an unreserved one adds a full R. */
  lemma OpenedMoves(s: ClusterState, signalId: string, tradeId: string)
    requires tradeId !in s.open
    ensures Used(Opened(s, signalId, tradeId)) == Used(s) + if signalId in s.pending then 0.0 else 1.0
    ensures Concurrent(Opened(s, signalId, tradeId)) == Concurrent(s) + if signalId in s.pending then 0 else 1
  {
    SumDrop(s.pending, signalId);
    SizeDrop(s.pending, signalId);
    SumPut(s.open, tradeId, Held(s.pending, signalId));
    SizePut(s.open, tradeId, Held(s.pending, signalId));
  }

  /** Closing an open trade turns at most its own risk into realised loss, provided
      it lost at most one trade-R; closing an unknown one charges a full R. */
  lemma ClosedConverts(s: ClusterState, tradeId: string, rr: real)
    ensures
      Used(Closed(s, tradeId, rr))
      == Used(s) + Damage(rr, Held(s.open, tradeId)) - if tradeId in s.open then s.open[tradeId] else 0.0
    ensures tradeId in s.open && s.open[tradeId] >= 0.0 && rr >= -1.0
            ==> Used(Closed(s, tradeId, rr)) <= Used(s)
    ensures Concurrent(Closed(s, tradeId, rr)) == Concurrent(s) - if tradeId in s.open then 1 else 0
  {
    SumDrop(s.open, tradeId);
    SizeDrop(s.open, tradeId);
    if tradeId in s.open && s.open[tradeId] >= 0.0 && rr >= -1.0 {
      DamageAtMostRisk(rr, s.open[tradeId]);
    }
  }

  lemma DamageAtMostRisk(rr: real, riskR: real)
    requires rr >= -1.0 && riskR >= 0.0
    ensures 0.0 <= Damage(rr, riskR) <= riskR
  {
    if rr < 0.0 {
      assert (1.0 + rr) * riskR >= 0.0;
      assert (1.0 + rr) * riskR == riskR + rr * riskR;
    }
  }

  lemma SizePut(m: map<string, real>, k: string, v: real)
    ensures |m[k := v]| == |m| + if k in m then 0 else 1
  {
    assert m[k := v].Keys == m.Keys + {k};
  }

  lemma SizeDrop(m: map<string, real>, k: string)
    ensures |m - {k}| == |m| - if k in m then 1 else 0
  {
    assert (m - {k}).Keys == m.Keys - {k};
    if k in m {
      assert |m.Keys - {k}| == |m.Keys| - 1;
    } else {
      assert m - {k} == m;
    }
  }

  // ----------------------------------------------------------------- tracker

  function GroupOf(groups: seq<Group>, symbol: string): Option<Group>
  {
    if groups == [] then None
    else if symbol in groups[0].symbols then Some(groups[0])
    else GroupOf(groups[1..], symbol)
  }

  function StateOn(states: map<string, ClusterState>, name: string, today: int): ClusterState
  {
    if name in states && states[name].day == today then states[name] else NewDay(today)
  }

  method SumOfValues(m: map<string, real>) returns (total: real)
    ensures total == Sum(m)
  {
    var left := m;
    total := 0.0;
    while left != map[]
      invariant left.Keys <= m.Keys
      invariant total + Sum(left) == Sum(m)
      decreases |left|
    {
      var k :| k in left;
      SumSplit(left, k);
      SizeDrop(left, k);
      total := total + left[k];
      left := left - {k};
    }
  }

  class ClusterRiskTracker {
    const enabled: bool
    const groups: seq<Group>
    var states: map<string, ClusterState>

    constructor (enabled: bool, groups: seq<Group>)
      ensures this.enabled == enabled && this.groups == groups && states == map[]
    {
      this.enabled, this.groups := enabled, groups;
      states := map[];
    }

    /** The first configured group that lists the symbol. */
    method Match(symbol: string) returns (group: Option<Group>)
      ensures group == if enabled then GroupOf(groups, symbol) else None
    {
      if !enabled {
        return None;
      }
      for k := 0 to |groups|
        invariant GroupOf(groups, symbol) == GroupOf(groups[k..], symbol)
      {
        assert groups[k..][1..] == groups[k + 1..];
        if symbol in groups[k].symbols {
          return Some(groups[k]);
        }
      }
      return None;
    }

    method StateFor(name: string, today: int) returns (s: ClusterState)
      modifies this
      ensures s == StateOn(old(states), name, today)
      ensures states == old(states)[name := s]
    {
      if name !in states || states[name].day != today {
        states := states[name := NewDay(today)];
      }
      s := states[name];
      assert states == old(states)[name := s];
    }

    /** None: the symbol belongs to no group and is approved at full size. */
    method PreviewSignal(symbol: string, today: int) returns (v: Option<Verdict>)
      modifies this
      ensures
        var g := if enabled then GroupOf(groups, symbol) else None;
        if g.None? then v == None && states == old(states)
        else
          var s := StateOn(old(states), g.value.name, today);
          v == Some(Preview(g.value, s)) && states == old(states)[g.value.name := s]
    {
      var group := Match(symbol);
      if group.None? {
        return None;
      }
      var g := group.value;
      var s := StateFor(g.name, today);
      var pendingR := SumOfValues(s.pending);
      var openR := SumOfValues(s.open);
      v := Some(Verdicts(g, s, s.realized + pendingR + openR));
    }

    method ReserveSignal(symbol: string, signalId: string, planned: real, today: int)
      modifies this
      ensures
        var g := if enabled then GroupOf(groups, symbol) else None;
        states == if g.None? then old(states)
                  else
                    var s := StateOn(old(states), g.value.name, today);
                    old(states)[g.value.name := Reserve(s, signalId, planned)]
    {
      var group := Match(symbol);
      if group.Some? {
        var s := StateFor(group.value.name, today);
        states := states[group.value.name := s.(pending := s.pending[signalId := planned])];
      }
    }

    method ReleaseSignal(symbol: string, signalId: string, today: int)
      modifies this
      ensures
        var g := if enabled then GroupOf(groups, symbol) else None;
        states == if g.None? then old(states)
                  else old(states)[g.value.name := Release(StateOn(old(states), g.value.name, today), signalId)]
    {
      var group := Match(symbol);
      if group.Some? {
        var s := StateFor(group.value.name, today);
        states := states[group.value.name := s.(pending := s.pending - {signalId})];
      }
    }

    method MarkTradeOpened(symbol: string, signalId: string, tradeId: string, today: int)
      modifies this
      ensures
        var g := if enabled then GroupOf(groups, symbol) else None;
        states == if g.None? then old(states)
                  else old(states)[g.value.name := Opened(StateOn(old(states), g.value.name, today), signalId, tradeId)]
    {
      var group := Match(symbol);
      if group.Some? {
        var s := StateFor(group.value.name, today);
        var riskR := if signalId in s.pending then s.pending[signalId] else 1.0;
        s := s.(pending := s.pending - {signalId});
        s := s.(open := s.open[tradeId := riskR]);
        states := states[group.value.name := s];
      }
    }

    method MarkTradeClosed(symbol: string, signalId: string, tradeId: string, rr: real, today: int)
      modifies this
      ensures
        var g := if enabled then GroupOf(groups, symbol) else None;
        states == if g.None? then old(states)
                  else
                    var s := StateOn(old(states), g.value.name, today);
                    old(states)[g.value.name := Closed(s, tradeId, rr)]
    {
      var group := Match(symbol);
      if group.Some? {
        var s := StateFor(group.value.name, today);
        var riskR := if tradeId in s.open then s.open[tradeId] else 1.0;
        s := s.(open := s.open - {tradeId});
        if rr < 0.0 {
          s := s.(realized := s.realized + Damage(rr, riskR), losses := s.losses + 1);
        }
        states := states[group.value.name := s];
      }
    }
  }
}
