/** What one execute call keeps, what it costs and gives back, and that it can always end. */
module AdmissionProgress {
  import opened Sums
  import opened Tally
  import opened ClusterRisk
  import opened Admission
  import opened AdmissionLaws

  // ------------------------------------------------------------------ exact load

  function Bit(b: bool): int { if b then 1 else 0 }

  ghost predicate IsOwnAt(t: StoredTrade, y: Option<string>) { !t.adopted && (y.None? || y == Some(t.symbol)) }

  ghost predicate WaitsAtY(f: Flight, y: Option<string>)
  {
    f.phase != Failing && !f.stored && (y.None? || y == Some(f.symbol))
  }

  /** The reservations a step gives back without a trade, and the closed own trades. */
  ghost function GivenBack(s: State, step: Step, y: Option<string>): int
  {
    match step
    case Close(t) => Bit(t in s.store && IsOwnAt(s.store[t], y))
    case Fail(id) => Bit(id in s.flights && WaitsAtY(s.flights[id], y))
    case Finish(id) => Bit(id in s.flights && WaitsAtY(s.flights[id], y))
    case _ => 0
  }

  ghost predicate Reserves(s: State, step: Step, y: Option<string>)
  {
    step.Commit? && s.lock.ClusterHeld? && (y.None? || y == Some(s.lock.symbol))
  }

  lemma LeavingIsAccountedFor(p: Params, s: State, step: Step, y: Option<string>)
    requires Enabled(p, s, step) && (step.Finish? || step.Unwind?)
    ensures Load(Apply(p, s, step), y) == Load(s, y) - GivenBack(s, step, y)
  {
    HowManyDrop(s.flights, step.id, WaitsAt(y));
  }

  lemma AddIsAccountedFor(p: Params, s: State, id: nat, y: Option<string>)
    requires Enabled(p, s, Add(id)) && Shape(s) && s.flights[id].tradeId !in s.store
    ensures Load(Apply(p, s, Add(id)), y) == Load(s, y)
  {
    var t, f := Apply(p, s, Add(id)), s.flights[id];
    HowManyPut(s.flights, id, t.flights[id], WaitsAt(y));
    HowManyPut(s.store, f.tradeId, t.store[f.tradeId], OwnAt(y));
  }

  lemma StayingIsAccountedFor(p: Params, s: State, step: Step, y: Option<string>)
    requires Enabled(p, s, step) && Shape(s)
    requires step.Commit? || step.Plan? || step.Fill? || step.AddFails? || step.Book? || step.Fail?
    ensures Load(Apply(p, s, step), y) == Load(s, y) + Bit(Reserves(s, step, y)) - GivenBack(s, step, y)
  {
    var t := Apply(p, s, step);
    assert t.store == s.store && t.flights == s.flights[step.id := t.flights[step.id]];
    HowManyPut(s.flights, step.id, t.flights[step.id], WaitsAt(y));
  }

  /** The load is accounted for exactly: a reservation adds one, a close of an own trade and
      a call that ends without a trade take one off, and no other step moves it. */
  lemma LoadIsAccountedFor(p: Params, s: State, step: Step, y: Option<string>)
    requires Enabled(p, s, step) && Shape(s)
    requires step.Add? ==> s.flights[step.id].tradeId !in s.store
    ensures Load(Apply(p, s, step), y) == Load(s, y) + Bit(Reserves(s, step, y)) - GivenBack(s, step, y)
  {
    if step.Finish? || step.Unwind? {
      LeavingIsAccountedFor(p, s, step, y);
    } else if step.Add? {
      AddIsAccountedFor(p, s, step.id, y);
    } else if MovesFlights(step) {
      StayingIsAccountedFor(p, s, step, y);
    } else {
      OthersKeepFlights(p, s, step);
      if step.Close? {
        HowManyDrop(s.store, step.tradeId, OwnAt(y));
      } else if step.Adopt? {
        HowManyPut(s.store, step.tradeId, step.trade, OwnAt(y));
      }
    }
  }

  // ------------------------------------------------------------ what a call keeps

  lemma OthersKeepTheCall(p: Params, s: State, step: Step, t: State, id: nat)
    requires Enabled(p, s, step) && t == Apply(p, s, step) && id in s.flights && id in t.flights
    requires MovesFlights(step) ==> step.id != id
    ensures t.flights[id] == s.flights[id]
  {
  }

  lemma OwnStepsKeepTheCall(p: Params, s: State, step: Step, t: State)
    requires Enabled(p, s, step) && t == Apply(p, s, step) && MovesFlights(step)
    requires step.id in s.flights && step.id in t.flights
    ensures
      var f, g := s.flights[step.id], t.flights[step.id];
      && g == f.(phase := g.phase, stored := g.stored, tradeId := g.tradeId, risk := g.risk)
      && (g.risk == if step.Plan? then PlannedRisk(p, s.startEquity, f.multiplier) else f.risk)
      && (g.tradeId != f.tradeId ==> step == Fill(step.id, g.tradeId))
  {
  }

  /** From its planning on a call's risk is the planned one, and neither it nor the signal,
      the symbol or the size changes on the way, whatever else happens. */
  lemma PlannedRiskIsKept(p: Params, s: State, step: Step, t: State, id: nat)
    requires Enabled(p, s, step) && t == Apply(p, s, step) && id in s.flights && id in t.flights
    ensures t.flights[id].risk
         == if step == Plan(id) then PlannedRisk(p, s.startEquity, s.flights[id].multiplier) else s.flights[id].risk
    ensures
      var f, g := s.flights[id], t.flights[id];
      && g.signalId == f.signalId && g.symbol == f.symbol && g.multiplier == f.multiplier && g.planned == f.planned
      && (g.tradeId != f.tradeId ==> step == Fill(id, g.tradeId))
  {
    if MovesFlights(step) && step.id == id {
      OwnStepsKeepTheCall(p, s, step, t);
    } else {
      OthersKeepTheCall(p, s, step, t, id);
    }
  }

  /** It is stored with the trade, under the trade's own id. */
  lemma StoredAtThePlannedRisk(p: Params, s: State, id: nat)
    requires Enabled(p, s, Add(id))
    ensures
      var f := s.flights[id];
      Apply(p, s, Add(id)).store == s.store[f.tradeId := StoredTrade(f.signalId, f.symbol, false, f.risk)]
  {
  }

  /** A trade leaves the store by its close and enters it by its own call or by adoption. */
  lemma StoreChangesAreNamed(p: Params, s: State, step: Step, id: string)
    requires Enabled(p, s, step)
    ensures id in s.store && id !in Apply(p, s, step).store <==> step == Close(id)
    ensures id !in s.store && id in Apply(p, s, step).store <==>
              && id !in s.store
              && ((step.Adopt? && step.tradeId == id) || (step.Add? && s.flights[step.id].tradeId == id))
    ensures step.Adopt? ==> Apply(p, s, step).store == s.store[step.tradeId := step.trade]
    ensures step == Close(id) ==> id in Apply(p, s, step).closing && Apply(p, s, step).closing[id] == s.store[id]
    ensures id in s.closing && id !in Apply(p, s, step).closing <==> step.BookClose? && step.tradeId == id
  {
  }

  /** The day's start equity is the first one seen and stays. */
  lemma {:induction false} StartEquityIsTheFirst(p: Params, s: State, steps: seq<Step>, t: State)
    requires Reaches(p, s, steps, t)
    ensures s.startEquity > 0.0 ==> t.startEquity == s.startEquity
    ensures s.startEquity <= 0.0 && steps != [] && steps[0].Latch? ==> t.startEquity == steps[0].equity
    ensures (forall k :: 0 <= k < |steps| ==> !steps[k].Latch?) ==> t.startEquity == s.startEquity
    decreases |steps|
  {
    if steps != [] {
      StartEquityIsTheFirst(p, Apply(p, s, steps[0]), steps[1..], t);
    }
  }

  // ------------------------------------------------------------ a call can always end

  ghost function OwnSteps(id: nat): set<Step> { {Fail(id), Unwind(id), Add(id), AddFails(id), Book(id), Finish(id)} }

  /** A run that begins with a step and goes on as one already known. */
  lemma First(p: Params, s: State, step: Step, rest: seq<Step>, t: State) returns (steps: seq<Step>)
    requires Enabled(p, s, step) && Reaches(p, Apply(p, s, step), rest, t)
    ensures steps == [step] + rest && Reaches(p, s, steps, t)
  {
    steps := [step] + rest;
    assert steps[0] == step && steps[1..] == rest;
  }

  /** The call's flight is gone and its reservation given back. */
  ghost predicate Ended(s: State, id: nat, t: State)
    requires id in s.flights
  {
    && t.flights == s.flights - {id}
    && t.pending == PendingSub(s.pending, s.flights[id].symbol)
    && t.pendingIds == s.pendingIds - {s.flights[id].signalId}
  }

  lemma UnwindingEnds(p: Params, s: State, id: nat) returns (steps: seq<Step>, t: State)
    requires id in s.flights && s.flights[id].phase == Failing
    ensures Reaches(p, s, steps, t) && steps == [Unwind(id)]
    ensures t.flights == s.flights - {id} && t.store == s.store
    ensures t.pending == s.pending && t.pendingIds == s.pendingIds
  {
    t := Apply(p, s, Unwind(id));
    steps := First(p, s, Unwind(id), [], t);
  }

  lemma FailingEnds(p: Params, s: State, id: nat) returns (steps: seq<Step>, t: State)
    requires id in s.flights && s.lock.Free? && s.flights[id].phase in {Reserved, Planned}
    ensures Reaches(p, s, steps, t) && steps == [Fail(id), Unwind(id)] && Ended(s, id, t) && t.store == s.store
  {
    var u := Apply(p, s, Fail(id));
    assert u.flights - {id} == s.flights - {id};
    steps, t := UnwindingEnds(p, u, id);
    steps := First(p, s, Fail(id), steps, t);
  }

  lemma BookedEnds(p: Params, s: State, id: nat) returns (steps: seq<Step>, t: State)
    requires id in s.flights && s.lock.Free? && s.flights[id].phase == Booked
    ensures Reaches(p, s, steps, t) && steps == [Finish(id)] && Ended(s, id, t) && t.store == s.store
  {
    t := Apply(p, s, Finish(id));
    steps := First(p, s, Finish(id), [], t);
  }

  lemma UnbookedEnds(p: Params, s: State, id: nat) returns (steps: seq<Step>, t: State)
    requires id in s.flights && s.lock.Free? && s.flights[id].phase in {Added, NotAdded}
    ensures Reaches(p, s, steps, t) && steps == [Book(id), Finish(id)] && Ended(s, id, t) && t.store == s.store
  {
    var u := Apply(p, s, Book(id));
    assert u.flights - {id} == s.flights - {id};
    steps, t := BookedEnds(p, u, id);
    steps := First(p, s, Book(id), steps, t);
  }

  lemma StoringEnds(p: Params, s: State, id: nat) returns (steps: seq<Step>, t: State)
    requires id in s.flights && s.lock.Free? && s.flights[id].phase == Filled
    ensures Reaches(p, s, steps, t) && steps == [Add(id), Book(id), Finish(id)] && Ended(s, id, t)
    ensures
      var f := s.flights[id];
      t.store == s.store[f.tradeId := StoredTrade(f.signalId, f.symbol, false, f.risk)]
  {
    var u := Apply(p, s, Add(id));
    StoredAtThePlannedRisk(p, s, id);
    assert u.flights - {id} == s.flights - {id};
    steps, t := UnbookedEnds(p, u, id);
    steps := First(p, s, Add(id), steps, t);
  }

  lemma NotStoringEnds(p: Params, s: State, id: nat) returns (steps: seq<Step>, t: State)
    requires id in s.flights && s.lock.Free? && s.flights[id].phase == Filled
    ensures Reaches(p, s, steps, t) && steps == [AddFails(id), Book(id), Finish(id)] && Ended(s, id, t)
    ensures t.store == s.store
  {
    var u := Apply(p, s, AddFails(id));
    assert u.flights - {id} == s.flights - {id};
    steps, t := UnbookedEnds(p, u, id);
    steps := First(p, s, AddFails(id), steps, t);
  }

  /** Wherever a call stands, and whether or not its trade can be stored, it can end by steps
      of its own: its flight is gone, its reservation given back, and only a trade that was
      filled and could be stored stays. */
  lemma CallsCanAlwaysEnd(p: Params, s: State, id: nat, stores: bool) returns (steps: seq<Step>, t: State)
    requires id in s.flights && s.lock.Free?
    ensures Reaches(p, s, steps, t) && t.flights == s.flights - {id}
    ensures
      var f := s.flights[id];
      && t.pending == (if f.phase == Failing then s.pending else PendingSub(s.pending, f.symbol))
      && t.pendingIds == (if f.phase == Failing then s.pendingIds else s.pendingIds - {f.signalId})
      && t.store == if f.phase == Filled && stores
                    then s.store[f.tradeId := StoredTrade(f.signalId, f.symbol, false, f.risk)] else s.store
    ensures forall k :: 0 <= k < |steps| ==> steps[k] in OwnSteps(id)
  {
    var phase := s.flights[id].phase;
    if phase == Failing {
      steps, t := UnwindingEnds(p, s, id);
    } else if phase in {Reserved, Planned} {
      steps, t := FailingEnds(p, s, id);
    } else if phase == Filled && stores {
      steps, t := StoringEnds(p, s, id);
    } else if phase == Filled {
      steps, t := NotStoringEnds(p, s, id);
    } else if phase == Booked {
      steps, t := BookedEnds(p, s, id);
    } else {
      steps, t := UnbookedEnds(p, s, id);
    }
  }

  /** A rejection frees the lock and leaves everything else as it was. */
  lemma RejectionsLeaveNoTrace(p: Params, s: State, signalId: string, symbol: string)
    requires Enabled(p, s, TakeLock(signalId, symbol))
    ensures
      var t := Apply(p, s, TakeLock(signalId, symbol));
      Enabled(p, t, Reject) && Apply(p, t, Reject) == s
  {
  }
}
