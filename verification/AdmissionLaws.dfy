/** What admission keeps, whatever the interleaving. */
module AdmissionLaws {
  import opened Sums
  import opened Tally
  import opened ClusterRisk
  import opened Admission

  // -------------------------------------------------- who holds a reservation

  ghost predicate Holds(f: Flight) { f.phase != Failing }

  /** Admitted, and not (yet) counted by the store. */
  ghost predicate Waits(f: Flight) { Holds(f) && !f.stored }

  ghost function HoldsAll(): Flight -> bool { (f: Flight) => Holds(f) }

  ghost function HoldsOn(symbol: string): Flight -> bool { (f: Flight) => Holds(f) && f.symbol == symbol }

  /** The reservation counters say exactly how many flights hold a reservation. */
  ghost predicate CountersExact(pending: map<string, nat>, fl: map<nat, Flight>)
  {
    && (forall y :: PendingFor(pending, y) == HowMany(fl, HoldsOn(y)))
    && Count(pending) == HowMany(fl, HoldsAll())
  }

  ghost predicate HeldBy(s: State, i: nat, x: string)
  {
    i in s.flights && Holds(s.flights[i]) && s.flights[i].signalId == x
  }

  /** The reserved ids are exactly the ids of the flights that hold a reservation,
      and no id is held twice. */
  ghost predicate IdsExact(s: State)
  {
    && (forall i, x :: HeldBy(s, i, x) ==> x in s.pendingIds)
    && (forall x :: x in s.pendingIds ==> exists i :: HeldBy(s, i, x))
    && (forall i, j, x :: HeldBy(s, i, x) && HeldBy(s, j, x) ==> i == j)
  }

  predicate Shaped(f: Flight)
  {
    (f.phase == Added ==> f.stored) && (f.phase != Added && f.phase != Booked ==> !f.stored)
  }

  ghost predicate Shape(s: State)
  {
    forall i :: i in s.flights ==> Shaped(s.flights[i])
  }

  lemma {:induction false} PendingAddCounts(pending: map<string, nat>, y: string)
    ensures forall x :: PendingFor(PendingAdd(pending, y), x) == PendingFor(pending, x) + if x == y then 1 else 0
    ensures Count(PendingAdd(pending, y)) == Count(pending) + 1
  {
    CountPut(pending, y, PendingFor(pending, y) + 1);
  }

  lemma {:induction false} PendingSubCounts(pending: map<string, nat>, y: string)
    requires PendingFor(pending, y) >= 1
    ensures forall x :: PendingFor(PendingSub(pending, y), x) == PendingFor(pending, x) - if x == y then 1 else 0
    ensures Count(PendingSub(pending, y)) == Count(pending) - 1
  {
    CountSplit(pending, y);
    if pending[y] > 1 {
      CountPut(pending, y, pending[y] - 1);
    }
  }

  lemma CountersAfterJoin(pending: map<string, nat>, fl: map<nat, Flight>, id: nat, f: Flight)
    requires CountersExact(pending, fl) && id !in fl && Holds(f)
    ensures CountersExact(PendingAdd(pending, f.symbol), fl[id := f])
  {
    PendingAddCounts(pending, f.symbol);
    forall y { HowManyPut(fl, id, f, HoldsOn(y)); }
    HowManyPut(fl, id, f, HoldsAll());
  }

  lemma LeavingHoldsOnly(fl: map<nat, Flight>, id: nat)
    requires id in fl && Holds(fl[id])
    ensures forall y :: HowMany(fl - {id}, HoldsOn(y)) == HowMany(fl, HoldsOn(y)) - if y == fl[id].symbol then 1 else 0
    ensures HowMany(fl - {id}, HoldsAll()) == HowMany(fl, HoldsAll()) - 1
  {
    forall y { HowManyDrop(fl, id, HoldsOn(y)); }
    HowManyDrop(fl, id, HoldsAll());
  }

  lemma UnwindingHoldsNone(fl: map<nat, Flight>, id: nat)
    requires id in fl && !Holds(fl[id])
    ensures forall y :: HowMany(fl - {id}, HoldsOn(y)) == HowMany(fl, HoldsOn(y))
    ensures HowMany(fl - {id}, HoldsAll()) == HowMany(fl, HoldsAll())
  {
    forall y { HowManyDrop(fl, id, HoldsOn(y)); }
    HowManyDrop(fl, id, HoldsAll());
  }

  lemma HolderIsCounted(fl: map<nat, Flight>, id: nat)
    requires id in fl && Holds(fl[id])
    ensures HowMany(fl, HoldsOn(fl[id].symbol)) >= 1
  {
    assert id in Where(fl, HoldsOn(fl[id].symbol));
  }

  /** The holder takes exactly its own reservation along; nothing is clipped at zero. */
  lemma CountersAfterLeave(pending: map<string, nat>, fl: map<nat, Flight>, id: nat)
    requires CountersExact(pending, fl) && id in fl && Holds(fl[id])
    ensures PendingFor(pending, fl[id].symbol) >= 1
    ensures CountersExact(PendingSub(pending, fl[id].symbol), fl - {id})
  {
    HolderIsCounted(fl, id);
    PendingSubCounts(pending, fl[id].symbol);
    LeavingHoldsOnly(fl, id);
  }

  lemma CountersAfterChange(pending: map<string, nat>, fl: map<nat, Flight>, id: nat, f: Flight)
    requires CountersExact(pending, fl) && !Holds(f) && id !in fl
    ensures CountersExact(pending, fl[id := f])
  {
    forall y { HowManyPut(fl, id, f, HoldsOn(y)); }
    HowManyPut(fl, id, f, HoldsAll());
  }

  lemma CountersAfterSwap(pending: map<string, nat>, fl: map<nat, Flight>, id: nat, f: Flight)
    requires CountersExact(pending, fl)
    requires id in fl && fl[id].symbol == f.symbol && Holds(fl[id]) && Holds(f)
    ensures CountersExact(pending, fl[id := f])
  {
    forall y { HowManyPut(fl, id, f, HoldsOn(y)); }
    HowManyPut(fl, id, f, HoldsAll());
  }

  lemma CountersAfterUnwind(pending: map<string, nat>, fl: map<nat, Flight>, id: nat)
    requires CountersExact(pending, fl) && id in fl && !Holds(fl[id])
    ensures CountersExact(pending, fl - {id})
  {
    UnwindingHoldsNone(fl, id);
  }

  lemma CountersAfterFail(pending: map<string, nat>, fl: map<nat, Flight>, id: nat, f: Flight)
    requires CountersExact(pending, fl) && id in fl && Holds(fl[id]) && !Holds(f)
    ensures CountersExact(PendingSub(pending, fl[id].symbol), fl[id := f])
  {
    CountersAfterLeave(pending, fl, id);
    CountersAfterChange(PendingSub(pending, fl[id].symbol), fl - {id}, id, f);
    assert fl[id := f] == (fl - {id})[id := f];
  }

  predicate Advances(step: Step)
  {
    step.Plan? || step.Fill? || step.Add? || step.AddFails? || step.Book?
  }

  lemma CountersKept(p: Params, s: State, step: Step)
    requires CountersExact(s.pending, s.flights) && Enabled(p, s, step)
    ensures var s' := Apply(p, s, step); CountersExact(s'.pending, s'.flights)
  {
    var fl, fl' := s.flights, Apply(p, s, step).flights;
    if Advances(step) {
      CountersAfterSwap(s.pending, fl, step.id, fl'[step.id]);
    } else if step.Commit? {
      CountersAfterJoin(s.pending, fl, step.id, fl'[step.id]);
    } else if step.Finish? {
      CountersAfterLeave(s.pending, fl, step.id);
    } else if step.Fail? {
      CountersAfterFail(s.pending, fl, step.id, fl'[step.id]);
    } else if step.Unwind? {
      CountersAfterUnwind(s.pending, fl, step.id);
    }
  }

  // ----------------------------------------------------------- duplicate signals

  ghost predicate SignalFree(s: State, x: string)
  {
    && x !in s.pendingIds
    && forall t :: t in s.store && !s.store[t].adopted ==> s.store[t].signalId != x
  }

  /** No two members of in-flight and own store share a signal; the signal whose
      admission is being decided belongs to neither. */
  ghost predicate NoDuplicates(s: State)
  {
    StoreDistinct(s) && WaitingNotStored(s) && (!s.lock.Free? ==> SignalFree(s, s.lock.signalId))
  }

  ghost predicate StoreDistinct(s: State)
  {
    forall t, u :: t in s.store && u in s.store && t != u && !s.store[t].adopted && !s.store[u].adopted
      ==> s.store[t].signalId != s.store[u].signalId
  }

  ghost predicate WaitingNotStored(s: State)
  {
    forall t, i :: t in s.store && i in s.flights && !s.store[t].adopted && Waits(s.flights[i])
      ==> s.store[t].signalId != s.flights[i].signalId
  }

  lemma ShapeKept(p: Params, s: State, step: Step)
    requires Shape(s) && Enabled(p, s, step)
    ensures Shape(Apply(p, s, step))
  {
    var t := Apply(p, s, step);
    forall i | i in t.flights ensures Shaped(t.flights[i]) {
      assert i in s.flights ==> Shaped(s.flights[i]);
    }
  }

  lemma CommitKeepsIds(p: Params, s: State, id: nat)
    requires IdsExact(s) && NoDuplicates(s) && Enabled(p, s, Commit(id))
    ensures IdsExact(Apply(p, s, Commit(id)))
  {
    var t, x0 := Apply(p, s, Commit(id)), s.lock.signalId;
    assert forall i, x :: HeldBy(t, i, x) <==> HeldBy(s, i, x) || (i == id && x == x0);
    forall x | x in t.pendingIds ensures exists i :: HeldBy(t, i, x) {
      if x != x0 {
        var i :| HeldBy(s, i, x);
        assert HeldBy(t, i, x);
      } else {
        assert HeldBy(t, id, x);
      }
    }
  }

  /** t has given up what id held. */
  lemma GivingUpKeepsIds(s: State, t: State, id: nat)
    requires IdsExact(s) && id in s.flights && Holds(s.flights[id])
    requires t.pendingIds == s.pendingIds - {s.flights[id].signalId}
    requires forall i, x :: HeldBy(t, i, x) <==> HeldBy(s, i, x) && i != id
    ensures IdsExact(t)
  {
    assert HeldBy(s, id, s.flights[id].signalId);
    forall x | x in t.pendingIds ensures exists i :: HeldBy(t, i, x) {
      var i :| HeldBy(s, i, x);
      assert HeldBy(t, i, x);
    }
  }

  lemma LeavingKeepsIds(p: Params, s: State, step: Step)
    requires IdsExact(s) && Enabled(p, s, step) && (step.Finish? || step.Fail?)
    ensures IdsExact(Apply(p, s, step))
  {
    var t := Apply(p, s, step);
    assert forall i, x :: HeldBy(t, i, x) <==> HeldBy(s, i, x) && i != step.id;
    GivingUpKeepsIds(s, t, step.id);
  }

  predicate MovesFlights(step: Step) { Advances(step) || step.Commit? || step.Finish? || step.Fail? || step.Unwind? }

  predicate MovesTheLock(step: Step) { step.TakeLock? || step.Judge? || step.Reject? || step.ReserveCluster? }

  lemma LockStepsKeepFlights(p: Params, s: State, step: Step)
    requires Enabled(p, s, step) && MovesTheLock(step)
    ensures
      var t := Apply(p, s, step);
      t.flights == s.flights && t.pendingIds == s.pendingIds && t.store == s.store && t.startEquity == s.startEquity
  {
  }

  lemma StoreStepsKeepFlights(p: Params, s: State, step: Step)
    requires Enabled(p, s, step) && (step.Close? || step.BookClose? || step.Adopt? || step.Latch?)
    ensures Apply(p, s, step).flights == s.flights && Apply(p, s, step).pendingIds == s.pendingIds
  {
  }

  lemma OthersKeepFlights(p: Params, s: State, step: Step)
    requires Enabled(p, s, step) && !MovesFlights(step)
    ensures Apply(p, s, step).flights == s.flights && Apply(p, s, step).pendingIds == s.pendingIds
  {
    if MovesTheLock(step) {
      LockStepsKeepFlights(p, s, step);
    } else {
      StoreStepsKeepFlights(p, s, step);
    }
  }

  /** Moving on, a flight keeps its signal and reservation. */
  lemma AdvancingKeepsTheRest(p: Params, s: State, step: Step)
    requires Enabled(p, s, step) && Advances(step)
    ensures
      var t := Apply(p, s, step);
      && t.pendingIds == s.pendingIds && step.id in s.flights && step.id in t.flights
      && t.flights == s.flights[step.id := t.flights[step.id]]
      && Holds(s.flights[step.id]) && Holds(t.flights[step.id])
      && t.flights[step.id].signalId == s.flights[step.id].signalId
      && (!step.Plan? ==> t.flights[step.id].risk == s.flights[step.id].risk)
  {
  }

  lemma OthersKeepHolders(p: Params, s: State, step: Step)
    requires Enabled(p, s, step) && !step.Commit? && !step.Finish? && !step.Fail?
    ensures Apply(p, s, step).pendingIds == s.pendingIds
    ensures forall i, x :: HeldBy(Apply(p, s, step), i, x) <==> HeldBy(s, i, x)
  {
    if Advances(step) {
      AdvancingKeepsTheRest(p, s, step);
    } else if !step.Unwind? {
      OthersKeepFlights(p, s, step);
    }
  }

  lemma SameHoldersSameIds(s: State, t: State)
    requires IdsExact(s) && t.pendingIds == s.pendingIds && forall i, x :: HeldBy(t, i, x) <==> HeldBy(s, i, x)
    ensures IdsExact(t)
  {
    forall x | x in t.pendingIds ensures exists i :: HeldBy(t, i, x) {
      var i :| HeldBy(s, i, x);
      assert HeldBy(t, i, x);
    }
  }

  lemma IdsKept(p: Params, s: State, step: Step)
    requires IdsExact(s) && NoDuplicates(s) && Enabled(p, s, step)
    ensures IdsExact(Apply(p, s, step))
  {
    if step.Commit? {
      CommitKeepsIds(p, s, step.id);
    } else if step.Finish? || step.Fail? {
      LeavingKeepsIds(p, s, step);
    } else {
      OthersKeepHolders(p, s, step);
      SameHoldersSameIds(s, Apply(p, s, step));
    }
  }

  lemma NoDuplicatesKept(p: Params, s: State, step: Step)
    requires IdsExact(s) && Shape(s) && NoDuplicates(s) && Enabled(p, s, step)
    ensures NoDuplicates(Apply(p, s, step))
  {
    StoreDistinctKept(p, s, step);
    WaitingNotStoredKept(p, s, step);
    LockSignalStaysFree(p, s, step);
  }

  lemma AddKeepsStoreDistinct(p: Params, s: State, id: nat)
    requires IdsExact(s) && Shape(s) && NoDuplicates(s) && Enabled(p, s, Add(id))
    ensures StoreDistinct(Apply(p, s, Add(id)))
  {
    AddedIsDistinct(s, id);
  }

  lemma OthersStoreNothing(p: Params, s: State, step: Step)
    requires Enabled(p, s, step) && !step.Add?
    ensures
      var u := Apply(p, s, step);
      forall t :: t in u.store && !u.store[t].adopted ==> t in s.store && u.store[t] == s.store[t]
  {
  }

  lemma StoreDistinctKept(p: Params, s: State, step: Step)
    requires IdsExact(s) && Shape(s) && NoDuplicates(s) && Enabled(p, s, step)
    ensures StoreDistinct(Apply(p, s, step))
  {
    if step.Add? {
      AddKeepsStoreDistinct(p, s, step.id);
    } else {
      OthersStoreNothing(p, s, step);
    }
  }

  lemma AddKeepsWaitingApart(p: Params, s: State, id: nat)
    requires IdsExact(s) && Shape(s) && NoDuplicates(s) && Enabled(p, s, Add(id))
    ensures WaitingNotStored(Apply(p, s, Add(id)))
  {
    AddedIsDistinct(s, id);
  }

  /** The other steps make no flight wait but the lock's and store no trade of their own. */
  lemma OthersKeepWaitingApart(p: Params, s: State, step: Step)
    requires Shape(s) && NoDuplicates(s) && Enabled(p, s, step) && !step.Add?
    ensures WaitingNotStored(Apply(p, s, step))
  {
    var u := Apply(p, s, step);
    forall t, i | t in u.store && i in u.flights && !u.store[t].adopted && Waits(u.flights[i])
      ensures u.store[t].signalId != u.flights[i].signalId
    {
      assert t in s.store && u.store[t] == s.store[t];
    }
  }

  lemma WaitingNotStoredKept(p: Params, s: State, step: Step)
    requires IdsExact(s) && Shape(s) && NoDuplicates(s) && Enabled(p, s, step)
    ensures WaitingNotStored(Apply(p, s, step))
  {
    if step.Add? {
      AddKeepsWaitingApart(p, s, step.id);
    } else {
      OthersKeepWaitingApart(p, s, step);
    }
  }

  lemma LockSignalStaysFree(p: Params, s: State, step: Step)
    requires IdsExact(s) && Shape(s) && NoDuplicates(s) && Enabled(p, s, step)
    ensures var t := Apply(p, s, step); !t.lock.Free? ==> SignalFree(t, t.lock.signalId)
  {
    if step.Add? {
      AddedIsDistinct(s, step.id);
    }
  }

  /** Only one reservation holds a signal, so no other flight waits with it. */
  lemma AddedIsDistinct(s: State, id: nat)
    requires IdsExact(s) && Shape(s) && NoDuplicates(s) && id in s.flights && s.flights[id].phase == Filled
    ensures forall i :: i in s.flights && i != id && Waits(s.flights[i]) ==>
              s.flights[i].signalId != s.flights[id].signalId
    ensures forall t :: t in s.store && !s.store[t].adopted ==> s.store[t].signalId != s.flights[id].signalId
    ensures !s.lock.Free? ==> s.lock.signalId != s.flights[id].signalId
  {
    assert HeldBy(s, id, s.flights[id].signalId);
    forall i | i in s.flights && i != id && Waits(s.flights[i])
      ensures s.flights[i].signalId != s.flights[id].signalId
    {
      assert HeldBy(s, i, s.flights[i].signalId);
    }
  }

  // ------------------------------------------------------------- exposure caps

  /** Everywhere (None), or on one symbol. */
  ghost predicate At(y: Option<string>, symbol: string) { y.None? || y.value == symbol }

  ghost function WaitsAt(y: Option<string>): Flight -> bool { (f: Flight) => Waits(f) && At(y, f.symbol) }

  ghost function OwnAt(y: Option<string>): StoredTrade -> bool { (t: StoredTrade) => !t.adopted && At(y, t.symbol) }

  /** Open trades that execute opened, plus admitted signals not yet stored. */
  ghost function Load(s: State, y: Option<string>): nat
  {
    HowMany(s.store, OwnAt(y)) + HowMany(s.flights, WaitsAt(y))
  }

  ghost function Ceiling(p: Params, y: Option<string>): nat { if y.None? then p.Cap() else p.symbolCap }

  /** While the lock is held, what its holder counted still bounds the load. */
  ghost predicate WithinCap(p: Params, s: State, y: Option<string>)
  {
    && Load(s, y) <= Ceiling(p, y)
    && (s.lock.Counted? && At(y, s.lock.symbol) ==> Load(s, y) <= if y.None? then s.lock.open else s.lock.symbolOpen)
    && ((s.lock.Judged? || s.lock.ClusterHeld?) && At(y, s.lock.symbol) ==> Load(s, y) < Ceiling(p, y))
  }

  lemma AddMovesLoad(p: Params, s: State, id: nat, y: Option<string>)
    requires Enabled(p, s, Add(id)) && Shape(s)
    ensures Load(Apply(p, s, Add(id)), y) <= Load(s, y)
  {
    var t, f := Apply(p, s, Add(id)), s.flights[id];
    HowManyPut(s.flights, id, t.flights[id], WaitsAt(y));
    HowManyPut(s.store, f.tradeId, t.store[f.tradeId], OwnAt(y));
  }

  lemma FlightStepsMoveLoad(p: Params, s: State, step: Step, y: Option<string>)
    requires Enabled(p, s, step) && Shape(s) && MovesFlights(step) && !step.Add?
    ensures Load(Apply(p, s, step), y) <= Load(s, y) + if step.Commit? && At(y, s.lock.symbol) then 1 else 0
  {
    if step.Finish? || step.Unwind? {
      HowManyDrop(s.flights, step.id, WaitsAt(y));
    } else {
      HowManyPut(s.flights, step.id, Apply(p, s, step).flights[step.id], WaitsAt(y));
    }
  }

  lemma StoreStepsAddNoLoad(p: Params, s: State, step: Step, y: Option<string>)
    requires Enabled(p, s, step) && !MovesFlights(step)
    ensures Load(Apply(p, s, step), y) <= Load(s, y)
  {
    OthersKeepFlights(p, s, step);
    if step.Close? {
      HowManyDrop(s.store, step.tradeId, OwnAt(y));
    } else if step.Adopt? {
      HowManyPut(s.store, step.tradeId, step.trade, OwnAt(y));
    }
  }

  lemma OnlyCommitAddsLoad(p: Params, s: State, step: Step, y: Option<string>)
    requires Enabled(p, s, step) && Shape(s)
    ensures Load(Apply(p, s, step), y) <= Load(s, y) + if step.Commit? && At(y, s.lock.symbol) then 1 else 0
  {
    if step.Add? {
      AddMovesLoad(p, s, step.id, y);
    } else if MovesFlights(step) {
      FlightStepsMoveLoad(p, s, step, y);
    } else {
      StoreStepsAddNoLoad(p, s, step, y);
    }
  }

  /** What the lock holder counts is at least the load: stored trades are counted
      before their reservation is given back, never the other way round. */
  lemma CountCoversLoad(s: State, symbol: string)
    requires CountersExact(s.pending, s.flights)
    ensures Load(s, None) <= |s.store| + Count(s.pending)
    ensures Load(s, Some(symbol)) <= HowMany(s.store, IsOn(symbol)) + PendingFor(s.pending, symbol)
  {
    HowManyWeaker(s.store, OwnAt(None), OwnAt(None));
    HowManyWeaker(s.flights, WaitsAt(None), HoldsAll());
    HowManyWeaker(s.store, OwnAt(Some(symbol)), IsOn(symbol));
    HowManyWeaker(s.flights, WaitsAt(Some(symbol)), HoldsOn(symbol));
  }

  lemma WithinCapKept(p: Params, s: State, step: Step, y: Option<string>)
    requires WithinCap(p, s, y) && CountersExact(s.pending, s.flights) && Shape(s) && Enabled(p, s, step)
    ensures WithinCap(p, Apply(p, s, step), y)
  {
    OnlyCommitAddsLoad(p, s, step, y);
    if step.TakeLock? {
      CountCoversLoad(s, step.symbol);
    }
  }

  // ------------------------------------------------------------- money at risk

  lemma SlotShare(p: Params, equity: real)
    requires p.lossPct > 0.0
    ensures RiskPerTrade(p, equity) >= 0.0
    ensures p.Cap() as real * RiskPerTrade(p, equity) == DailyBudget(p, equity)
  {
    if equity > 0.0 {
      var n, b := p.Cap() as real, equity * (p.lossPct / 100.0);
      assert n >= 1.0 && b > 0.0;
      assert b / n >= 0.0;
      assert n * (b / n) == b;
    }
  }

  lemma ClampShrinks(slot: real, m: real)
    requires slot >= 0.0
    ensures 0.0 <= slot * Clamp(m) <= slot
  {
    var c := Clamp(m);
    assert 0.0 <= c <= 1.0;
    assert slot * (1.0 - c) >= 0.0;
    assert slot * (1.0 - c) == slot - slot * c;
  }

  lemma PlanFitsASlot(p: Params, equity: real, m: real)
    requires p.lossPct > 0.0
    ensures 0.0 <= PlannedRisk(p, equity, m) <= RiskPerTrade(p, equity)
  {
    var slot := RiskPerTrade(p, equity);
    SlotShare(p, equity);
    ClampShrinks(slot, m);
    assert PlannedRisk(p, equity, m) == slot * Clamp(m);
  }

  /** In figures: the budget is the daily limit in per cent of the start equity, and a plan
      risks its multiplier, between nothing and the whole, of one slot of it. */
  lemma PlanIsItsPartOfASlot(p: Params, equity: real, m: real)
    requires p.lossPct > 0.0 && equity > 0.0
    ensures DailyBudget(p, equity) * 100.0 == equity * p.lossPct
    ensures
      var slots := if p.maxLosingStreak < 1 then 1 else p.maxLosingStreak;
      var part := if m < 0.0 then 0.0 else if m > 1.0 then 1.0 else m;
      PlannedRisk(p, equity, m) * slots as real == DailyBudget(p, equity) * part
  {
    var slots, slot := p.Cap() as real, RiskPerTrade(p, equity);
    SlotShare(p, equity);
    assert PlannedRisk(p, equity, m) == slot * Clamp(m);
    assert (slot * Clamp(m)) * slots == (slots * slot) * Clamp(m);
  }

  lemma SlotsMakeTheBudget(p: Params, equity: real)
    requires p.lossPct > 0.0
    ensures Times(p.Cap(), RiskPerTrade(p, equity)) == DailyBudget(p, equity)
  {
    SlotShare(p, equity);
    TimesIsProduct(p.Cap(), RiskPerTrade(p, equity));
  }

  lemma {:induction false} SumsFit<K, L>(a: map<K, real>, b: map<L, real>, cap: nat, slot: real)
    requires slot >= 0.0 && |a| + |b| <= cap
    requires (forall k :: k in a ==> a[k] <= slot) && (forall k :: k in b ==> b[k] <= slot)
    ensures Sum(a) + Sum(b) <= Times(cap, slot)
  {
    SumAtMost(a, slot);
    SumAtMost(b, slot);
    TimesAdds(|a|, |b|, slot);
    TimesGrows(|a| + |b|, cap, slot);
  }

  predicate InSlot(risk: real, slot: real) { 0.0 <= risk <= slot }

  /** No plan risks more than one slot of the day's budget. */
  ghost predicate SlotBound(p: Params, s: State)
  {
    var slot := RiskPerTrade(p, s.startEquity);
    && (forall i :: i in s.flights ==> InSlot(s.flights[i].risk, slot))
    && (forall t :: t in s.store && !s.store[t].adopted ==> InSlot(s.store[t].risk, slot))
  }

  lemma PlanKeepsSlot(p: Params, s: State, id: nat)
    requires p.Valid() && SlotBound(p, s) && Enabled(p, s, Plan(id))
    ensures SlotBound(p, Apply(p, s, Plan(id)))
  {
    PlanFitsASlot(p, s.startEquity, s.flights[id].multiplier);
  }

  /** Before the day's equity is known every risk is nothing. */
  lemma LatchKeepsSlot(p: Params, s: State, equity: real)
    requires p.Valid() && SlotBound(p, s) && Enabled(p, s, Latch(equity))
    ensures SlotBound(p, Apply(p, s, Latch(equity)))
  {
    SlotShare(p, s.startEquity);
    SlotShare(p, equity);
  }

  lemma ReservedKeepsSlot(p: Params, s: State, id: nat)
    requires p.Valid() && SlotBound(p, s) && Enabled(p, s, Commit(id))
    ensures SlotBound(p, Apply(p, s, Commit(id)))
  {
    SlotShare(p, s.startEquity);
  }

  lemma AddKeepsSlot(p: Params, s: State, id: nat)
    requires SlotBound(p, s) && Enabled(p, s, Add(id))
    ensures SlotBound(p, Apply(p, s, Add(id)))
  {
  }

  lemma LeavingKeepsSlot(p: Params, s: State, step: Step)
    requires SlotBound(p, s) && Enabled(p, s, step) && (step.Finish? || step.Fail? || step.Unwind?)
    ensures SlotBound(p, Apply(p, s, step))
  {
  }

  lemma AdvancingKeepsSlot(p: Params, s: State, step: Step)
    requires SlotBound(p, s) && Enabled(p, s, step) && Advances(step) && !step.Plan? && !step.Add?
    ensures SlotBound(p, Apply(p, s, step))
  {
    AdvancingKeepsTheRest(p, s, step);
  }

  lemma OthersKeepSlot(p: Params, s: State, step: Step)
    requires SlotBound(p, s) && Enabled(p, s, step) && !MovesFlights(step) && !step.Latch?
    ensures SlotBound(p, Apply(p, s, step))
  {
    OthersKeepFlights(p, s, step);
  }

  lemma SlotBoundKept(p: Params, s: State, step: Step)
    requires p.Valid() && SlotBound(p, s) && Enabled(p, s, step)
    ensures SlotBound(p, Apply(p, s, step))
  {
    if step.Plan? {
      PlanKeepsSlot(p, s, step.id);
    } else if step.Latch? {
      LatchKeepsSlot(p, s, step.equity);
    } else if step.Commit? {
      ReservedKeepsSlot(p, s, step.id);
    } else if step.Add? {
      AddKeepsSlot(p, s, step.id);
    } else if Advances(step) {
      AdvancingKeepsSlot(p, s, step);
    } else if MovesFlights(step) {
      LeavingKeepsSlot(p, s, step);
    } else {
      OthersKeepSlot(p, s, step);
    }
  }

  ghost function OwnRisk(s: State): map<string, real>
  {
    map t | t in Where(s.store, OwnAt(None)) :: s.store[t].risk
  }

  ghost function WaitingRisk(s: State): map<nat, real>
  {
    map i | i in Where(s.flights, WaitsAt(None)) :: s.flights[i].risk
  }

  lemma MoneyWithinBudget(p: Params, s: State)
    requires p.Valid() && SlotBound(p, s) && Load(s, None) <= p.Cap()
    ensures Sum(OwnRisk(s)) + Sum(WaitingRisk(s)) <= DailyBudget(p, s.startEquity)
  {
    var slot := RiskPerTrade(p, s.startEquity);
    SlotShare(p, s.startEquity);
    SlotsMakeTheBudget(p, s.startEquity);
    assert OwnRisk(s).Keys == Where(s.store, OwnAt(None));
    assert WaitingRisk(s).Keys == Where(s.flights, WaitsAt(None));
    SumsFit(OwnRisk(s), WaitingRisk(s), p.Cap(), slot);
  }

  // ----------------------------------------------------------------- every run

  ghost predicate Sound(p: Params, s: State)
  {
    && CountersExact(s.pending, s.flights) && Shape(s) && IdsExact(s) && NoDuplicates(s)
    && (forall y :: WithinCap(p, s, y))
    && SlotBound(p, s)
  }

  /** A start, such as a restart, whose own trades already keep the caps and the slot. */
  ghost predicate Start(p: Params, s: State)
  {
    && Init(s) && StoreDistinct(s)
    && (forall y :: HowMany(s.store, OwnAt(y)) <= Ceiling(p, y))
    && (forall t :: t in s.store && !s.store[t].adopted ==> InSlot(s.store[t].risk, RiskPerTrade(p, s.startEquity)))
  }

  lemma SoundAtStart(p: Params, s: State)
    requires p.Valid() && Start(p, s)
    ensures Sound(p, s)
  {
    forall y
      ensures WithinCap(p, s, y)
    {
      assert Where(s.flights, WaitsAt(y)) == {};
    }
    forall y
      ensures HowMany(s.flights, HoldsOn(y)) == 0
    {
      assert Where(s.flights, HoldsOn(y)) == {};
    }
    assert Where(s.flights, HoldsAll()) == {};
  }

  lemma SoundKept(p: Params, s: State, step: Step)
    requires p.Valid() && Sound(p, s) && Enabled(p, s, step)
    ensures Sound(p, Apply(p, s, step))
  {
    CountersKept(p, s, step);
    ShapeKept(p, s, step);
    IdsKept(p, s, step);
    NoDuplicatesKept(p, s, step);
    forall y { WithinCapKept(p, s, step, y); }
    SlotBoundKept(p, s, step);
  }

  lemma {:induction false} SoundAlways(p: Params, s: State, steps: seq<Step>, t: State)
    requires p.Valid() && Sound(p, s) && Reaches(p, s, steps, t)
    ensures Sound(p, t)
    decreases |steps|
  {
    if steps != [] {
      SoundKept(p, s, steps[0]);
      SoundAlways(p, Apply(p, s, steps[0]), steps[1..], t);
    }
  }

  /** The trade cap, for every interleaving from every such start: trades adopted from the broker
      aside, open plus admitted-but-not-stored never exceeds it. */
  lemma {:induction false} TradeCapHolds(p: Params, s: State, steps: seq<Step>, t: State)
    requires p.Valid() && Start(p, s) && Reaches(p, s, steps, t)
    ensures HowMany(t.store, OwnAt(None)) + HowMany(t.flights, WaitsAt(None)) <= p.Cap()
  {
    SoundAtStart(p, s);
    SoundAlways(p, s, steps, t);
    assert WithinCap(p, t, None);
  }

  /** And likewise the exposure cap of any symbol. */
  lemma {:induction false} SymbolCapHolds(p: Params, s: State, steps: seq<Step>, t: State, symbol: string)
    requires p.Valid() && Start(p, s) && Reaches(p, s, steps, t)
    ensures HowMany(t.store, OwnAt(Some(symbol))) + HowMany(t.flights, WaitsAt(Some(symbol))) <= p.symbolCap
  {
    SoundAtStart(p, s);
    SoundAlways(p, s, steps, t);
    assert WithinCap(p, t, Some(symbol));
  }

  /** The money, for every interleaving: all planned risk together fits the day's budget. */
  lemma {:induction false} DailyBudgetHolds(p: Params, s: State, steps: seq<Step>, t: State)
    requires p.Valid() && Start(p, s) && Reaches(p, s, steps, t)
    ensures Sum(OwnRisk(t)) + Sum(WaitingRisk(t)) <= DailyBudget(p, t.startEquity)
  {
    SoundAtStart(p, s);
    SoundAlways(p, s, steps, t);
    assert WithinCap(p, t, None);
    MoneyWithinBudget(p, t);
  }

  /** No trade of its own escapes these bounds: a stored trade counts as another's only if
      it did so at the start or was adopted from the broker on the way. */
  lemma {:induction false} OnlyAdoptedTradesAreExempt(p: Params, s: State, steps: seq<Step>, t: State, id: string)
    requires Reaches(p, s, steps, t) && id in t.store && t.store[id].adopted
    ensures (id in s.store && s.store[id].adopted) || exists trade :: Adopt(id, trade) in steps
    decreases |steps|
  {
    if steps != [] {
      var next := Apply(p, s, steps[0]);
      OnlyAdoptedTradesAreExempt(p, next, steps[1..], t, id);
      if exists trade :: Adopt(id, trade) in steps[1..] {
        var trade :| Adopt(id, trade) in steps[1..];
        assert Adopt(id, trade) in steps;
      } else if !(id in s.store && s.store[id].adopted) {
        assert steps[0] == Adopt(id, next.store[id]);
      }
    }
  }

  /** Reservations, for every interleaving: counters, ids and signals agree. */
  lemma {:induction false} ReservationsExact(p: Params, s: State, steps: seq<Step>, t: State)
    requires p.Valid() && Start(p, s) && Reaches(p, s, steps, t)
    ensures CountersExact(t.pending, t.flights) && IdsExact(t) && NoDuplicates(t)
    ensures (forall i :: i in t.flights ==> t.flights[i].phase == Failing) && t.lock.Free?
            ==> t.pendingIds == {} && forall y :: PendingFor(t.pending, y) == 0
  {
    SoundAtStart(p, s);
    SoundAlways(p, s, steps, t);
    if (forall i :: i in t.flights ==> t.flights[i].phase == Failing) {
      forall y
        ensures HowMany(t.flights, HoldsOn(y)) == 0
      {
        assert Where(t.flights, HoldsOn(y)) == {};
      }
    }
  }
}
