/** One execute call, run to its end: whatever the path out, what was reserved is
    released, and the store gains a trade exactly when one is returned. */
module ExecutionEngine {
  import opened Sums
  import ClusterRisk
  import RiskEngine
  import Tally
  import Admission

  /** When a signal's candle closed, when it was triggered, emitted and received; 0 for a
      time that is not known. */
  datatype Stamps = Stamps(closedAt: int, triggeredAt: int, emittedAt: int, receivedAt: int)

  /** What the outside world answers during one call. */
  datatype World = World(
    now: int, today: int, maxAge: int, stamps: Stamps, healthy: bool, brokerUp: bool, context: RiskEngine.Context,
    startEquity: real, planned: bool, filled: Option<string>, added: bool, saved: bool)

  /** The time a signal's age counts from, if any is known. */
  function ActionableAt(s: Stamps): Option<int>
  {
    if s.closedAt != 0 then Some(s.closedAt)
    else if s.triggeredAt != 0 then Some(s.triggeredAt)
    else if s.emittedAt != 0 then Some(s.emittedAt)
    else if s.receivedAt != 0 then Some(s.receivedAt)
    else None
  }

  /** The first known time lies further back than a signal may be old. */
  ghost predicate TooOld(w: World)
  {
    var times := [w.stamps.closedAt, w.stamps.triggeredAt, w.stamps.emittedAt, w.stamps.receivedAt];
    exists k :: 0 <= k < |times| && times[k] != 0 && (forall j :: 0 <= j < k ==> times[j] == 0)
                && times[k] < w.now - w.maxAge
  }

  lemma AgeCountsFromTheFirstTime(w: World)
    ensures TooOld(w) <==> ActionableAt(w.stamps).Some? && w.now - ActionableAt(w.stamps).value > w.maxAge
  {
    var times := [w.stamps.closedAt, w.stamps.triggeredAt, w.stamps.emittedAt, w.stamps.receivedAt];
    assert times[0] == w.stamps.closedAt && times[1] == w.stamps.triggeredAt;
    assert times[2] == w.stamps.emittedAt && times[3] == w.stamps.receivedAt;
  }

  /** Neither the engine nor the age of the signal nor the broker stands in its way. */
  ghost predicate InReach(w: World, available: bool) { w.healthy && available && !TooOld(w) && w.brokerUp }

  /** The signal is on its way already, or has a trade. */
  ghost predicate Known(ids: set<string>, store: map<string, Admission.StoredTrade>, id: string)
  {
    id in ids || exists t :: t in store && store[t].signalId == id
  }

  datatype Outcome =
    | NoPersistence | Stale | BrokerDown | Duplicate | RiskRejected
    | PlanFailed | OrderFailed | Untracked(tradeId: string) | Opened(tradeId: string, risk: real)

  datatype Admitted = No(outcome: Outcome) | Yes(multiplier: real, plannedR: real)

  class Engine {
    const params: Admission.Params
    const cluster: ClusterRisk.ClusterRiskTracker
    var pending: map<string, nat>
    var pendingIds: set<string>
    var persistenceAvailable: bool
    var store: map<string, Admission.StoredTrade>

    /** No counter is kept at zero. */
    ghost predicate Valid()
      reads this
    {
      forall y :: y in pending ==> pending[y] >= 1
    }

    constructor (params: Admission.Params, cluster: ClusterRisk.ClusterRiskTracker)
      ensures Valid() && this.params == params && this.cluster == cluster
      ensures pending == map[] && pendingIds == {} && store == map[] && persistenceAvailable
    {
      this.params, this.cluster := params, cluster;
      pending, pendingIds, store, persistenceAvailable := map[], {}, map[], true;
    }

    method PendingTotal() returns (n: nat)
      ensures n == Count(pending)
    {
      var left := pending;
      n := 0;
      while left != map[]
        invariant n + Count(left) == Count(pending)
        decreases |left|
      {
        var k :| k in left;
        CountSplit(left, k);
        assert (left - {k}).Keys == left.Keys - {k};
        n := n + left[k];
        left := left - {k};
      }
    }

    method Reserve(symbol: string, signalId: string)
      modifies this
      ensures pending == Admission.PendingAdd(old(pending), symbol)
      ensures pendingIds == old(pendingIds) + {signalId}
      ensures store == old(store) && persistenceAvailable == old(persistenceAvailable)
      ensures old(Valid()) ==> Valid()
    {
      pending := pending[symbol := (if symbol in pending then pending[symbol] else 0) + 1];
      pendingIds := pendingIds + {signalId};
    }

    method Release(symbol: string, signalId: string)
      modifies this
      ensures pending == Admission.PendingSub(old(pending), symbol)
      ensures pendingIds == old(pendingIds) - {signalId}
      ensures store == old(store) && persistenceAvailable == old(persistenceAvailable)
      ensures old(Valid()) ==> Valid()
    {
      var n := if symbol in pending then pending[symbol] else 0;
      n := if n >= 1 then n - 1 else 0;
      pending := pending[symbol := n];
      if n == 0 {
        pending := pending - {symbol};
      }
      pendingIds := pendingIds - {signalId};
      assert n == 0 ==> pending == old(pending) - {symbol};
    }

    /** Which trades are open on a symbol, and whether a signal already has one. */
    method CountOpen(symbol: string, signalId: string) returns (open: nat, onSymbol: nat, known: bool)
      ensures open == |store|
      ensures onSymbol == Tally.HowMany(store, Admission.IsOn(symbol))
      ensures known <==> exists t :: t in store && store[t].signalId == signalId
    {
      open := |store|;
      onSymbol := |set t | t in store && store[t].symbol == symbol|;
      assert (set t | t in store && store[t].symbol == symbol) == Tally.Where(store, Admission.IsOn(symbol));
      known := exists t :: t in store && store[t].signalId == signalId;
    }

    /** The cluster book of the symbol's group, or an empty one when it has none. */
    ghost function Book(symbol: string, today: int): ClusterRisk.ClusterState
      reads cluster
    {
      var g := ClusterRisk.GroupOf(cluster.groups, symbol);
      if cluster.enabled && g.Some? then ClusterRisk.StateOn(cluster.states, g.value.name, today)
      else ClusterRisk.NewDay(today)
    }

    /** The context the rules see: everything open and on its way counted in. */
    ghost function Counted(w: World): RiskEngine.Context
      reads this, cluster
    {
      var symbol := w.context.signal.resolved;
      w.context.(
        effectiveOpen := |store| + Count(pending),
        effectiveSymbol := Tally.HowMany(store, Admission.IsOn(symbol)) + Admission.PendingFor(pending, symbol),
        cluster := Verdict(symbol, w.today))
    }

    ghost function Verdict(symbol: string, today: int): Option<ClusterRisk.Verdict>
      reads cluster
    {
      if Grouped(symbol) then Some(ClusterRisk.Preview(GroupFor(symbol), Book(symbol, today))) else None
    }

    ghost function GroupFor(symbol: string): ClusterRisk.Group
      requires Grouped(symbol)
    {
      ClusterRisk.GroupOf(cluster.groups, symbol).value
    }

    ghost predicate Grouped(symbol: string)
    {
      cluster.enabled && ClusterRisk.GroupOf(cluster.groups, symbol).Some?
    }

    /** The verdict on the symbol's book, which only comes to exist by being looked at. */
    method PreviewBook(symbol: string, today: int) returns (v: Option<ClusterRisk.Verdict>)
      modifies cluster
      ensures v == old(Verdict(symbol, today))
      ensures Grouped(symbol) ==> Book(symbol, today) == old(Book(symbol, today))
    {
      v := cluster.PreviewSignal(symbol, today);
    }

    method ReserveBook(symbol: string, id: string, planned: real, today: int)
      modifies cluster
      ensures Grouped(symbol) ==> Book(symbol, today) == ClusterRisk.Reserve(old(Book(symbol, today)), id, planned)
    {
      cluster.ReserveSignal(symbol, id, planned, today);
    }

    /** What is open and on its way, and the verdict on the group's book, for the rules. */
    method Look(w: World, open: nat, onSymbol: nat) returns (context: RiskEngine.Context)
      requires open == |store| && onSymbol == Tally.HowMany(store, Admission.IsOn(w.context.signal.resolved))
      modifies cluster
      ensures context == old(Counted(w))
      ensures Grouped(w.context.signal.resolved) ==>
                Book(w.context.signal.resolved, w.today) == old(Book(w.context.signal.resolved, w.today))
    {
      var symbol := w.context.signal.resolved;
      var total := PendingTotal();
      var verdict := PreviewBook(symbol, w.today);
      var waiting := if symbol in pending then pending[symbol] else 0;
      context := w.context.(effectiveOpen := open + total, effectiveSymbol := onSymbol + waiting, cluster := verdict);
    }

    /** The section run under the admission lock: count, judge, reserve. */
    method Admit(w: World) returns (a: Admitted)
      requires Valid()
      modifies this, cluster
      ensures Valid() && store == old(store) && persistenceAvailable == old(persistenceAvailable)
      ensures a.No? ==>
                a.outcome in {Duplicate, RiskRejected} && pending == old(pending) && pendingIds == old(pendingIds)
      ensures a == No(Duplicate) <==> Known(old(pendingIds), old(store), w.context.signal.id)
      ensures a == No(Duplicate) ==> cluster.states == old(cluster.states)
      ensures a.Yes? <==> !Known(old(pendingIds), old(store), w.context.signal.id) && Accepts(old(Counted(w)))
      ensures a.Yes? ==> Sizes(old(Counted(w)), a.multiplier, a.plannedR)
      ensures a.Yes? ==> pending == Admission.PendingAdd(old(pending), w.context.signal.resolved)
      ensures a.Yes? ==> pendingIds == old(pendingIds) + {w.context.signal.id}
      ensures a.Yes? ==> MayEnter(old(pending), old(pendingIds), old(store), w.context)
      ensures Grouped(w.context.signal.resolved) ==>
                && Judged(old(Book(w.context.signal.resolved, w.today)), Book(w.context.signal.resolved, w.today),
                          w.context.signal.id, a)
                && (a.Yes? ==> ApprovedAt(GroupFor(w.context.signal.resolved),
                                          old(Book(w.context.signal.resolved, w.today)), a.plannedR))
    {
      var id, symbol := w.context.signal.id, w.context.signal.resolved;
      var open, onSymbol, known := CountOpen(symbol, id);
      if id in pendingIds || known {
        return No(Duplicate);
      }
      var context := Look(w, open, onSymbol);
      var decision := JudgeSignal(context);
      if !decision.Accepted? {
        return No(RiskRejected);
      }
      ReserveBook(symbol, id, decision.plannedR, w.today);
      Reserve(symbol, id);
      return Yes(decision.multiplier, decision.plannedR);
    }

    /** Plan, order, store and book an admitted signal; release it on every way out. */
    method Carry(w: World, multiplier: real) returns (outcome: Outcome)
      requires Valid()
      modifies this, cluster
      ensures Valid()
      ensures pending == Admission.PendingSub(old(pending), w.context.signal.resolved)
      ensures pendingIds == old(pendingIds) - {w.context.signal.id}
      ensures Attempted(outcome) && AsAnswered(w, outcome)
      ensures outcome.Opened? ==> outcome.risk == Admission.PlannedRisk(params, w.startEquity, multiplier)
      ensures store == StoreAfter(old(store), w.context.signal, outcome)
      ensures persistenceAvailable == if outcome.Opened? then w.saved else old(persistenceAvailable)
      ensures Grouped(w.context.signal.resolved) ==>
                Carried(old(Book(w.context.signal.resolved, w.today)), Book(w.context.signal.resolved, w.today),
                        w.context.signal.id, outcome)
    {
      var id, symbol := w.context.signal.id, w.context.signal.resolved;
      if !w.planned {
        Release(symbol, id);
        cluster.ReleaseSignal(symbol, id, w.today);
        return PlanFailed;
      }
      var risk := Admission.PlannedRisk(params, w.startEquity, multiplier);
      if w.filled.None? {
        Release(symbol, id);
        cluster.ReleaseSignal(symbol, id, w.today);
        return OrderFailed;
      }
      var tradeId := w.filled.value;
      if !w.added {
        cluster.MarkTradeOpened(symbol, id, tradeId, w.today);
        Release(symbol, id);
        return Untracked(tradeId);
      }
      store := store[tradeId := Admission.StoredTrade(id, symbol, false, risk)];
      persistenceAvailable := w.saved;
      cluster.MarkTradeOpened(symbol, id, tradeId, w.today);
      Release(symbol, id);
      return Opened(tradeId, risk);
    }

    /** planned: the R the risk check approved, for a signal that got that far. */
    method Execute(w: World) returns (outcome: Outcome, ghost planned: real)
      requires Valid()
      modifies this, cluster
      ensures Valid()
      // which way out, by what stood in the way first
      ensures outcome == NoPersistence <==> !w.healthy || !old(persistenceAvailable)
      ensures outcome == Stale <==> w.healthy && old(persistenceAvailable) && TooOld(w)
      ensures outcome == BrokerDown <==> w.healthy && old(persistenceAvailable) && !TooOld(w) && !w.brokerUp
      ensures outcome == Duplicate <==>
                InReach(w, old(persistenceAvailable)) && Known(old(pendingIds), old(store), w.context.signal.id)
      ensures outcome == RiskRejected <==>
                && InReach(w, old(persistenceAvailable)) && !Known(old(pendingIds), old(store), w.context.signal.id)
                && !Accepts(old(Counted(w)))
      ensures Attempted(outcome) ==> AsAnswered(w, outcome)
      ensures persistenceAvailable == Available(w, outcome, old(persistenceAvailable))
      // every exit path gives back exactly the reservation it took
      ensures pending == old(pending) && pendingIds == old(pendingIds)
      // the store gains this signal's trade exactly when one is opened and tracked, at the approved size
      ensures store == StoreAfter(old(store), w.context.signal, outcome)
      ensures outcome.Opened? ==>
                exists r :: Sizes(old(Counted(w)), r, planned)
                            && outcome.risk == Admission.PlannedRisk(params, w.startEquity, r)
      // nothing is sent to the broker once a cap is reached
      ensures Attempted(outcome) ==> MayEnter(old(pending), old(pendingIds), old(store), w.context)
      // the cluster book: a call that ends early or fails leaves no trace, an opened one the R it was approved at
      ensures !Attempted(outcome) && !outcome.RiskRejected? ==> cluster.states == old(cluster.states)
      ensures Grouped(w.context.signal.resolved)
              && w.context.signal.id !in old(Book(w.context.signal.resolved, w.today).pending) ==>
                && Traced(old(Book(w.context.signal.resolved, w.today)), Book(w.context.signal.resolved, w.today),
                          w.context.signal.id, outcome, planned)
                && (Attempted(outcome) ==> ApprovedAt(GroupFor(w.context.signal.resolved),
                                                      old(Book(w.context.signal.resolved, w.today)), planned))
    {
      planned := 0.0;
      AgeCountsFromTheFirstTime(w);
      if !persistenceAvailable || !w.healthy {
        persistenceAvailable := false;
        outcome := NoPersistence;
        return;
      }
      var since := ActionableAt(w.stamps);
      if since.Some? && w.now - since.value > w.maxAge {
        outcome := Stale;
        return;
      }
      if !w.brokerUp {
        outcome := BrokerDown;
        return;
      }
      outcome, planned := AdmitAndCarry(w);
    }

    /** What follows the checks that need no lock. */
    method AdmitAndCarry(w: World) returns (outcome: Outcome, ghost planned: real)
      requires Valid()
      modifies this, cluster
      ensures Valid() && pending == old(pending) && pendingIds == old(pendingIds)
      ensures Attempted(outcome) || outcome in {Duplicate, RiskRejected}
      ensures outcome == Duplicate <==> Known(old(pendingIds), old(store), w.context.signal.id)
      ensures outcome == Duplicate ==> cluster.states == old(cluster.states)
      ensures outcome == RiskRejected <==>
                !Known(old(pendingIds), old(store), w.context.signal.id) && !Accepts(old(Counted(w)))
      ensures Attempted(outcome) ==> AsAnswered(w, outcome)
      ensures outcome.Opened? ==>
                exists r :: Sizes(old(Counted(w)), r, planned)
                            && outcome.risk == Admission.PlannedRisk(params, w.startEquity, r)
      ensures store == StoreAfter(old(store), w.context.signal, outcome)
      ensures Attempted(outcome) ==> MayEnter(old(pending), old(pendingIds), old(store), w.context)
      ensures persistenceAvailable == if outcome.Opened? then w.saved else old(persistenceAvailable)
      ensures Grouped(w.context.signal.resolved)
              && w.context.signal.id !in old(Book(w.context.signal.resolved, w.today).pending) ==>
                && Traced(old(Book(w.context.signal.resolved, w.today)), Book(w.context.signal.resolved, w.today),
                          w.context.signal.id, outcome, planned)
                && (Attempted(outcome) ==> ApprovedAt(GroupFor(w.context.signal.resolved),
                                                      old(Book(w.context.signal.resolved, w.today)), planned))
    {
      planned := 0.0;
      var a := Admit(w);
      if a.No? {
        outcome := a.outcome;
        return;
      }
      planned := a.plannedR;
      ReserveThenRelease(old(pending), w.context.signal.resolved);
      outcome := Carry(w, a.multiplier);
      ReserveThenReleaseBook(old(Book(w.context.signal.resolved, w.today)), w.context.signal.id, a.plannedR);
    }
  }

  /** The whole rule chain approves. */
  ghost predicate Accepts(c: RiskEngine.Context) { RiskEngine.AllApprove(RiskEngine.ALL_RULES, c) }

  /** The multiplier and R that approval comes with. */
  ghost predicate Sizes(c: RiskEngine.Context, multiplier: real, plannedR: real)
  {
    && Accepts(c)
    && RiskEngine.Compose(RiskEngine.Gathered(RiskEngine.ALL_RULES, c)) == RiskEngine.Accepted(multiplier, plannedR)
  }

  /** How an attempt ends, by what planner, broker and store answered. */
  ghost predicate AsAnswered(w: World, outcome: Outcome)
  {
    && (outcome.PlanFailed? <==> !w.planned)
    && (outcome.OrderFailed? <==> w.planned && w.filled.None?)
    && (outcome.Untracked? <==> w.planned && w.filled.Some? && !w.added)
    && (outcome.Opened? <==> w.planned && w.filled.Some? && w.added)
    && (outcome.Untracked? || outcome.Opened? ==> outcome.tradeId == w.filled.value)
  }

  /** Whether new entries are still taken: a failed save or health check ends that. */
  ghost function Available(w: World, outcome: Outcome, before: bool): bool
  {
    if outcome == NoPersistence then false else if outcome.Opened? then w.saved else before
  }

  /** The whole rule chain, and what the admission needs to know when it accepts. */
  method JudgeSignal(c: RiskEngine.Context) returns (d: RiskEngine.Decision)
    ensures d.Accepted? <==> Accepts(c)
    ensures d.Accepted? ==> Sizes(c, d.multiplier, d.plannedR)
    ensures d.Accepted? ==> c.effectiveOpen < RiskEngine.Slots(c.config) && c.effectiveSymbol < c.config.maxPerSymbol
    ensures d.Accepted? && c.cluster.Some? ==> c.cluster.value == ClusterRisk.Approved(d.plannedR)
  {
    d := RiskEngine.Evaluate(RiskEngine.ALL_RULES, c);
    if d.Accepted? {
      RiskEngine.AcceptanceGuards(c);
      RiskEngine.GatheredFromAll(c);
    }
  }

  /** The signal is new, and one more trade fits both caps. */
  ghost predicate MayEnter(pending: map<string, nat>, ids: set<string>, store: map<string, Admission.StoredTrade>,
                           c: RiskEngine.Context)
  {
    && c.signal.id !in ids
    && (forall t :: t in store ==> store[t].signalId != c.signal.id)
    && |store| + Count(pending) < RiskEngine.Slots(c.config)
    && Tally.HowMany(store, Admission.IsOn(c.signal.resolved)) + Admission.PendingFor(pending, c.signal.resolved)
       < c.config.maxPerSymbol
  }

  ghost predicate Attempted(outcome: Outcome)
  {
    outcome.PlanFailed? || outcome.OrderFailed? || outcome.Untracked? || outcome.Opened?
  }

  ghost function StoreAfter(store: map<string, Admission.StoredTrade>, signal: RiskEngine.Signal,
                            outcome: Outcome): map<string, Admission.StoredTrade>
  {
    if outcome.Opened?
    then store[outcome.tradeId := Admission.StoredTrade(signal.id, signal.resolved, false, outcome.risk)]
    else store
  }

  ghost predicate Judged(before: ClusterRisk.ClusterState, after: ClusterRisk.ClusterState, id: string, a: Admitted)
  {
    after == if a.Yes? then ClusterRisk.Reserve(before, id, a.plannedR) else before
  }

  ghost predicate Carried(before: ClusterRisk.ClusterState, after: ClusterRisk.ClusterState, id: string,
                          outcome: Outcome)
  {
    after == if outcome.Untracked? || outcome.Opened? then ClusterRisk.Opened(before, id, outcome.tradeId)
             else ClusterRisk.Release(before, id)
  }

  /** The book's own verdict approved exactly this R. */
  ghost predicate ApprovedAt(g: ClusterRisk.Group, before: ClusterRisk.ClusterState, planned: real)
  {
    ClusterRisk.Preview(g, before) == ClusterRisk.Approved(planned)
  }

  /** The group's book after a whole call: an opened trade is open there, at the R planned
      for it, and nothing stays pending; any other call leaves no trace. */
  ghost predicate Traced(before: ClusterRisk.ClusterState, after: ClusterRisk.ClusterState, id: string,
                         outcome: Outcome, planned: real)
  {
    if outcome.Untracked? || outcome.Opened?
    then after == ClusterRisk.Opened(ClusterRisk.Reserve(before, id, planned), id, outcome.tradeId)
    else after == before
  }

  lemma ReserveThenRelease(pending: map<string, nat>, y: string)
    requires y in pending ==> pending[y] >= 1
    ensures Admission.PendingSub(Admission.PendingAdd(pending, y), y) == pending
  {
  }

  lemma ReserveThenReleaseBook(s: ClusterRisk.ClusterState, id: string, r: real)
    ensures id !in s.pending ==> ClusterRisk.Release(ClusterRisk.Reserve(s, id, r), id) == s
  {
    assert id !in s.pending ==> s.pending[id := r] - {id} == s.pending;
  }
}
