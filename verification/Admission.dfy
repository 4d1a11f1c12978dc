/** Trade admission as a step relation: any number of execute calls, trade closes,
    broker adoptions and the risk trackers, interleaved in any order. One step is what
    one thread does between two points where another thread may run. */
module Admission {
  import opened Sums
  import opened Tally
  import opened ClusterRisk

  datatype Params = Params(maxLosingStreak: int, symbolCap: nat, group: Group, lossPct: real)
  {
    function Cap(): nat { if maxLosingStreak < 1 then 1 else maxLosingStreak }

    predicate InGroup(symbol: string) { symbol in group.symbols }

    ghost predicate Valid() { group.Valid() && lossPct > 0.0 }
  }

  /** Progress of one admitted execute call. */
  datatype Phase = Reserved | Planned | Filled | Added | NotAdded | Booked | Failing

  datatype Flight = Flight(signalId: string, symbol: string, multiplier: real, planned: real,
                           risk: real, tradeId: string, phase: Phase, stored: bool)

  /** adopted marks trades the store learnt from the broker, not from execute. */
  datatype StoredTrade = StoredTrade(signalId: string, symbol: string, adopted: bool, risk: real)

  /** The admission lock, with what its holder has computed so far. */
  datatype Lock =
    | Free
    | Counted(signalId: string, symbol: string, open: nat, symbolOpen: nat)
    | Judged(signalId: string, symbol: string, multiplier: real, planned: real)
    | ClusterHeld(signalId: string, symbol: string, multiplier: real, planned: real)

  datatype State = State(
    pending: map<string, nat>, pendingIds: set<string>, flights: map<nat, Flight>,
    store: map<string, StoredTrade>, closing: map<string, StoredTrade>,
    cluster: ClusterState, lock: Lock, startEquity: real)

  function PendingFor(pending: map<string, nat>, symbol: string): nat
  {
    if symbol in pending then pending[symbol] else 0
  }

  function PendingAdd(pending: map<string, nat>, symbol: string): map<string, nat>
  {
    pending[symbol := PendingFor(pending, symbol) + 1]
  }

  function PendingSub(pending: map<string, nat>, symbol: string): map<string, nat>
  {
    if PendingFor(pending, symbol) <= 1 then pending - {symbol}
    else pending[symbol := PendingFor(pending, symbol) - 1]
  }

  /** Start-of-day equity, split into as many slots as losing trades are allowed. */
  function RiskPerTrade(p: Params, startEquity: real): real
  {
    if startEquity <= 0.0 then 0.0 else startEquity * (p.lossPct / 100.0) / p.Cap() as real
  }

  function DailyBudget(p: Params, startEquity: real): real
  {
    if startEquity <= 0.0 then 0.0 else startEquity * (p.lossPct / 100.0)
  }

  function PlannedRisk(p: Params, startEquity: real, multiplier: real): real
  {
    RiskPerTrade(p, startEquity) * Clamp(multiplier)
  }

  ghost function IsOn(symbol: string): StoredTrade -> bool { (t: StoredTrade) => t.symbol == symbol }

  datatype Step =
    | TakeLock(signalId: string, symbol: string)
    | Judge(otherMultiplier: real, throttle: real)
    | Reject
    | ReserveCluster
    | Commit(id: nat)
    | Plan(id: nat)
    | Fill(id: nat, tradeId: string)
    | Add(id: nat)
    | AddFails(id: nat)
    | Book(id: nat)
    | Finish(id: nat)
    | Fail(id: nat)
    | Unwind(id: nat)
    | Close(tradeId: string)
    | BookClose(tradeId: string, rr: real)
    | Adopt(tradeId: string, trade: StoredTrade)
    | Latch(equity: real)

  ghost predicate Unused(s: State, tradeId: string)
  {
    && tradeId !in s.store && tradeId !in s.closing && tradeId !in s.cluster.open
    && forall i :: i in s.flights ==> s.flights[i].tradeId != tradeId
  }

  ghost predicate Enabled(p: Params, s: State, step: Step)
  {
    match step
    case TakeLock(signalId, symbol) =>
      && s.lock.Free? && signalId !in s.pendingIds
      && forall t :: t in s.store ==> s.store[t].signalId != signalId
    case Judge(other, throttle) =>
      && s.lock.Counted? && s.lock.open < p.Cap() && s.lock.symbolOpen < p.symbolCap
      && 0.0 < other <= 1.0 && 0.0 < throttle <= 1.0
      && (p.InGroup(s.lock.symbol) ==> Preview(p.group, s.cluster).Approved?)
    case Reject => s.lock.Counted?
    case ReserveCluster => s.lock.Judged?
    case Commit(id) => s.lock.ClusterHeld? && id !in s.flights
    case Plan(id) => id in s.flights && s.flights[id].phase == Reserved
    case Fill(id, tradeId) =>
      id in s.flights && s.flights[id].phase == Planned && tradeId != "" && Unused(s, tradeId)
    case Add(id) => id in s.flights && s.flights[id].phase == Filled
    case AddFails(id) => id in s.flights && s.flights[id].phase == Filled
    case Book(id) => id in s.flights && s.flights[id].phase in {Added, NotAdded}
    case Finish(id) => s.lock.Free? && id in s.flights && s.flights[id].phase == Booked
    case Fail(id) => s.lock.Free? && id in s.flights && s.flights[id].phase in {Reserved, Planned}
    case Unwind(id) => id in s.flights && s.flights[id].phase == Failing
    case Close(tradeId) => tradeId in s.store
    case BookClose(tradeId, rr) => tradeId in s.closing
    case Adopt(tradeId, trade) =>
      && trade.adopted && tradeId !in s.store
      && forall i :: i in s.flights ==> s.flights[i].tradeId != tradeId
    case Latch(equity) => s.startEquity <= 0.0 && equity > 0.0
  }

  ghost function ApprovedR(p: Params, s: State, other: real): real
  {
    if s.lock.Counted? && p.InGroup(s.lock.symbol) && Preview(p.group, s.cluster).Approved?
    then Preview(p.group, s.cluster).planned else other
  }

  ghost function Apply(p: Params, s: State, step: Step): State
    requires Enabled(p, s, step)
  {
    match step
    case TakeLock(signalId, symbol) =>
      s.(lock := Counted(signalId, symbol,
                         |s.store| + Count(s.pending),
                         HowMany(s.store, IsOn(symbol)) + PendingFor(s.pending, symbol)))
    case Judge(other, throttle) =>
      var planned := ApprovedR(p, s, other);
      var multiplier := if throttle < 1.0 then planned * throttle else planned;
      s.(lock := Judged(s.lock.signalId, s.lock.symbol, multiplier, planned))
    case Reject => s.(lock := Free)
    case ReserveCluster =>
      s.(lock := ClusterHeld(s.lock.signalId, s.lock.symbol, s.lock.multiplier, s.lock.planned),
         cluster := if p.InGroup(s.lock.symbol) then Reserve(s.cluster, s.lock.signalId, s.lock.planned) else s.cluster)
    case Commit(id) =>
      s.(lock := Free,
         pending := PendingAdd(s.pending, s.lock.symbol),
         pendingIds := s.pendingIds + {s.lock.signalId},
         flights := s.flights[id := Flight(s.lock.signalId, s.lock.symbol, s.lock.multiplier, s.lock.planned,
                                           0.0, "", Reserved, false)])
    case Plan(id) =>
      var f := s.flights[id];
      s.(flights := s.flights[id := f.(phase := Planned, risk := PlannedRisk(p, s.startEquity, f.multiplier))])
    case Fill(id, tradeId) =>
      s.(flights := s.flights[id := s.flights[id].(phase := Filled, tradeId := tradeId)])
    case Add(id) =>
      var f := s.flights[id];
      s.(flights := s.flights[id := f.(phase := Added, stored := true)],
         store := s.store[f.tradeId := StoredTrade(f.signalId, f.symbol, false, f.risk)])
    case AddFails(id) =>
      s.(flights := s.flights[id := s.flights[id].(phase := NotAdded)])
    case Book(id) =>
      var f := s.flights[id];
      s.(flights := s.flights[id := f.(phase := Booked)],
         cluster := if p.InGroup(f.symbol) then Opened(s.cluster, f.signalId, f.tradeId) else s.cluster)
    case Finish(id) =>
      var f := s.flights[id];
      s.(flights := s.flights - {id},
         pending := PendingSub(s.pending, f.symbol), pendingIds := s.pendingIds - {f.signalId})
    case Fail(id) =>
      var f := s.flights[id];
      s.(flights := s.flights[id := f.(phase := Failing)],
         pending := PendingSub(s.pending, f.symbol), pendingIds := s.pendingIds - {f.signalId})
    case Unwind(id) =>
      var f := s.flights[id];
      s.(flights := s.flights - {id},
         cluster := if p.InGroup(f.symbol) then ClusterRisk.Release(s.cluster, f.signalId) else s.cluster)
    case Close(tradeId) =>
      s.(store := s.store - {tradeId}, closing := s.closing[tradeId := s.store[tradeId]])
    case BookClose(tradeId, rr) =>
      var t := s.closing[tradeId];
      s.(closing := s.closing - {tradeId},
         cluster := if p.InGroup(t.symbol) then Closed(s.cluster, tradeId, rr) else s.cluster)
    case Adopt(tradeId, trade) => s.(store := s.store[tradeId := trade])
    case Latch(equity) => s.(startEquity := equity)
  }

  /** A worker that has just started: nothing in flight; the store and the cluster
      book hold whatever was hydrated from the broker. */
  ghost predicate Init(s: State)
  {
    && s.pending == map[] && s.pendingIds == {} && s.flights == map[] && s.closing == map[] && s.lock.Free?
    && s.cluster.pending == map[]
    && (forall t :: t in s.cluster.open ==> s.cluster.open[t] >= 0.0)
  }

  /** The run that takes these steps from s is possible and ends in t. */
  ghost predicate Reaches(p: Params, s: State, steps: seq<Step>, t: State)
    decreases |steps|
  {
    if steps == [] then s == t
    else Enabled(p, s, steps[0]) && Reaches(p, Apply(p, s, steps[0]), steps[1..], t)
  }
}
