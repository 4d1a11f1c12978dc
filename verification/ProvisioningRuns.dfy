/** Many provisionings and removals at once: each table write is a step of its own, in the
    compensation too, and any running provisioning may fail between any two of them. */
module ProvisioningRuns {
  import opened Sums
  import opened Provisioning

  /** A running provisioning: what it has written and not yet taken back. */
  datatype Job = Job(id: Id, port: int, secret: bool, lease: bool, agent: bool, undoing: bool)

  datatype State = State(t: Tables, running: map<nat, Job>)

  /** job is the provisioning that takes the step; a removal's steps name the agent. */
  datatype Step =
    | Begin(job: nat, id: Id, port: int)
    | Secret(job: nat, key: string, value: string)
    | TakeLease(job: nat, terminal: string)
    | Register(job: nat, agent: Agent)
    | Finish(job: nat)
    | Fail(job: nat)
    | UndoAgent(job: nat)
    | UndoLeases(job: nat)
    | UndoSecrets(job: nat)
    | Release(job: nat)
    | DropLeases(id: Id)
    | DropSecrets(id: Id)
    | DropAgent(id: Id)

  predicate IsRemoval(step: Step) { step.DropLeases? || step.DropSecrets? || step.DropAgent? }

  ghost predicate OwnsNothing(t: Tables, id: Id)
  {
    (forall path :: path in t.leases ==> t.leases[path] != id) && (forall k :: k in t.secrets ==> k.0 != id)
  }

  ghost predicate Writing(s: State, job: nat) { job in s.running && !s.running[job].undoing }

  ghost predicate Undoing(s: State, job: nat) { job in s.running && s.running[job].undoing }

  /** The agent row is written last, and the compensation takes back in this order: the
      agent with its allocation, the leases, the secrets, the allocation. */
  ghost predicate Enabled(s: State, step: Step)
  {
    match step
    case Begin(job, id, port) => job !in s.running && id != Manager && !Known(s.t, id) && !PortTaken(s.t, port)
    case Secret(job, _, _) => Writing(s, job) && !s.running[job].agent
    case TakeLease(job, terminal) => Writing(s, job) && !s.running[job].agent && terminal !in s.t.leases
    case Register(job, agent) => Writing(s, job) && !s.running[job].agent && agent.port == s.running[job].port
    case Finish(job) => Writing(s, job) && s.running[job].agent
    case Fail(job) => Writing(s, job)
    case UndoAgent(job) => Undoing(s, job) && s.running[job].agent
    case UndoLeases(job) => Undoing(s, job) && !s.running[job].agent && s.running[job].lease
    case UndoSecrets(job) => Undoing(s, job) && !s.running[job].agent && !s.running[job].lease && s.running[job].secret
    case Release(job) => Undoing(s, job) && !s.running[job].agent && !s.running[job].lease && !s.running[job].secret
    case DropLeases(id) => id in s.t.agents
    case DropSecrets(id) => id in s.t.agents
    case DropAgent(id) => id in s.t.agents && OwnsNothing(s.t, id)
  }

  function Unregistered(t: Tables, id: Id): Tables
  {
    t.(agents := t.agents - {id}, allocations := t.allocations - {id})
  }

  ghost function Apply(s: State, step: Step): State
    requires Enabled(s, step)
  {
    match step
    case Begin(job, id, port) =>
      State(Allocated(s.t, id, port), s.running[job := Job(id, port, false, false, false, false)])
    case Secret(job, key, value) =>
      State(s.t.(secrets := s.t.secrets[(s.running[job].id, key) := value]),
            s.running[job := s.running[job].(secret := true)])
    case TakeLease(job, terminal) =>
      State(s.t.(leases := s.t.leases[terminal := s.running[job].id]), s.running[job := s.running[job].(lease := true)])
    case Register(job, agent) =>
      State(s.t.(agents := s.t.agents[s.running[job].id := agent]), s.running[job := s.running[job].(agent := true)])
    case Finish(job) => s.(running := s.running - {job})
    case Fail(job) => s.(running := s.running[job := s.running[job].(undoing := true)])
    case UndoAgent(job) =>
      State(Unregistered(s.t, s.running[job].id), s.running[job := s.running[job].(agent := false)])
    case UndoLeases(job) =>
      State(s.t.(leases := WithoutLeases(s.t.leases, s.running[job].id)),
            s.running[job := s.running[job].(lease := false)])
    case UndoSecrets(job) =>
      State(s.t.(secrets := WithoutSecrets(s.t.secrets, s.running[job].id)),
            s.running[job := s.running[job].(secret := false)])
    case Release(job) =>
      State(s.t.(allocations := s.t.allocations - {s.running[job].id}), s.running - {job})
    case DropLeases(id) => s.(t := s.t.(leases := WithoutLeases(s.t.leases, id)))
    case DropSecrets(id) => s.(t := s.t.(secrets := WithoutSecrets(s.t.secrets, id)))
    case DropAgent(id) => s.(t := Unregistered(s.t, id))
  }

  ghost predicate Legal(s: State, run: seq<Step>)
    decreases |run|, 0
  {
    run == [] || (Legal(s, run[..|run| - 1]) && Enabled(After(s, run[..|run| - 1]), run[|run| - 1]))
  }

  ghost function After(s: State, run: seq<Step>): State
    requires Legal(s, run)
    decreases |run|, 1
  {
    if run == [] then s else Apply(After(s, run[..|run| - 1]), run[|run| - 1])
  }

  const EMPTY := State(Tables(map[], map[], map[], map[]), map[])

  /** A name that no provisioning is still at work on, finishing or failing. */
  ghost predicate Vacant(s: State, id: Id)
  {
    forall k :: k in s.running ==> s.running[k].id != id
  }

  /** No name is given out while a provisioning of that name is still at work. */
  ghost predicate Patient(s: State, run: seq<Step>)
    requires Legal(s, run)
    decreases |run|
  {
    run == [] ||
    (Patient(s, run[..|run| - 1]) && (run[|run| - 1].Begin? ==> Vacant(After(s, run[..|run| - 1]), run[|run| - 1].id)))
  }

  // ---------------------------------------------------------------- invariant

  /** The flags of a provisioning tell the truth about the rows of its name. */
  ghost predicate JobIsTrue(t: Tables, j: Job)
  {
    && j.id != Manager
    && (!j.agent ==> j.id !in t.agents)
    && (!j.agent && !j.undoing ==> j.id in t.allocations && t.allocations[j.id] == j.port)
    && (!j.lease ==> forall path :: path in t.leases ==> t.leases[path] != j.id)
    && (!j.secret ==> forall k :: k in t.secrets ==> k.0 != j.id)
    && (j.agent && j.id !in t.agents ==> OwnsNothing(t, j.id))
  }

  ghost predicate FlagsAreTrue(s: State) { forall k :: k in s.running ==> JobIsTrue(s.t, s.running[k]) }

  ghost predicate NamesDistinct(s: State)
  {
    forall i, k :: i in s.running && k in s.running && i != k ==> s.running[i].id != s.running[k].id
  }

  ghost predicate Owner(s: State, id: Id) { id == Manager || Known(s.t, id) || !Vacant(s, id) }

  /** Every lease and secret belongs to a known agent, a name still being worked on, or
      the manager. */
  ghost predicate Owned(s: State)
  {
    && (forall path :: path in s.t.leases ==> Owner(s, s.t.leases[path]) && s.t.leases[path] != Manager)
    && (forall k :: k in s.t.secrets ==> Owner(s, k.0))
  }

  ghost predicate RowsAgree(t: Tables)
  {
    !Known(t, Manager) && t.agents.Keys <= t.allocations.Keys && PortsDistinct(t)
  }

  ghost predicate Sound(s: State) { FlagsAreTrue(s) && NamesDistinct(s) && Owned(s) && RowsAgree(s.t) }

  ghost predicate Quiet(s: State, step: Step) { step.Begin? ==> Vacant(s, step.id) }

  /** The agent whose rows a step is about. */
  ghost function About(s: State, step: Step): Id
    requires Enabled(s, step)
  {
    if step.Begin? || IsRemoval(step) then step.id else s.running[step.job].id
  }

  lemma OthersJobStaysTrue(s: State, step: Step, j: Job)
    requires Enabled(s, step) && JobIsTrue(s.t, j) && j.id != About(s, step)
    ensures JobIsTrue(Apply(s, step).t, j)
  {
  }

  lemma OwnJobStaysTrue(s: State, step: Step)
    requires Sound(s) && Enabled(s, step) && Quiet(s, step) && !IsRemoval(step) && step.job in Apply(s, step).running
    ensures JobIsTrue(Apply(s, step).t, Apply(s, step).running[step.job])
  {
    assert !step.Begin? ==> JobIsTrue(s.t, s.running[step.job]);
  }

  lemma RemovedJobStaysTrue(s: State, step: Step, j: Job)
    requires Enabled(s, step) && IsRemoval(step) && JobIsTrue(s.t, j)
    ensures JobIsTrue(Apply(s, step).t, j)
  {
  }

  lemma OthersKeepTheirJob(s: State, step: Step, k: nat)
    requires Enabled(s, step) && k in Apply(s, step).running && (IsRemoval(step) || step.job != k)
    ensures k in s.running && Apply(s, step).running[k] == s.running[k]
  {
  }

  lemma FlagsStayTrue(s: State, step: Step)
    requires Sound(s) && Enabled(s, step) && Quiet(s, step)
    ensures FlagsAreTrue(Apply(s, step))
  {
    var u := Apply(s, step);
    forall k | k in u.running ensures JobIsTrue(u.t, u.running[k]) {
      if IsRemoval(step) {
        OthersKeepTheirJob(s, step, k);
        RemovedJobStaysTrue(s, step, u.running[k]);
      } else if step.job == k {
        OwnJobStaysTrue(s, step);
      } else {
        OthersKeepTheirJob(s, step, k);
        OthersJobStaysTrue(s, step, u.running[k]);
      }
    }
  }

  lemma NamesStayDistinct(s: State, step: Step)
    requires NamesDistinct(s) && Enabled(s, step) && Quiet(s, step)
    ensures NamesDistinct(Apply(s, step))
  {
  }

  predicate Leaves(step: Step) { step.Finish? || step.Release? }

  lemma StaysBusy(s: State, step: Step, id: Id)
    requires Enabled(s, step) && !Vacant(s, id) && (Leaves(step) ==> s.running[step.job].id != id)
    ensures !Vacant(Apply(s, step), id)
  {
    var k :| k in s.running && s.running[k].id == id;
    assert k in Apply(s, step).running && Apply(s, step).running[k].id == id;
  }

  /** A name that owns something stays known or at work. */
  lemma OwnerStays(s: State, step: Step, id: Id)
    requires Sound(s) && Enabled(s, step) && Quiet(s, step) && Owner(s, id)
    requires !OwnsNothing(Apply(s, step).t, id)
    ensures Owner(Apply(s, step), id)
  {
    if !Vacant(s, id) && !(Leaves(step) && s.running[step.job].id == id) {
      StaysBusy(s, step, id);
    } else if Leaves(step) {
      LeavingKeepsOwners(s, step, id);
    } else if Known(s.t, id) {
      KnownStaysKnown(s, step, id);
    }
  }

  lemma LeavingKeepsOwners(s: State, step: Step, id: Id)
    requires Sound(s) && Enabled(s, step) && Leaves(step) && Owner(s, id)
    requires Vacant(s, id) || s.running[step.job].id == id
    requires !OwnsNothing(Apply(s, step).t, id)
    ensures Owner(Apply(s, step), id)
  {
    assert JobIsTrue(s.t, s.running[step.job]);
  }

  lemma KnownStaysKnown(s: State, step: Step, id: Id)
    requires Enabled(s, step) && Known(s.t, id) && Vacant(s, id)
    requires !OwnsNothing(Apply(s, step).t, id)
    ensures Known(Apply(s, step).t, id)
  {
  }

  lemma StaysOwned(s: State, step: Step)
    requires Sound(s) && Enabled(s, step) && Quiet(s, step)
    ensures Owned(Apply(s, step))
  {
    var u := Apply(s, step);
    forall path | path in u.t.leases ensures Owner(u, u.t.leases[path]) && u.t.leases[path] != Manager {
      OwnerOfNewRows(s, step);
      OwnerStays(s, step, u.t.leases[path]);
    }
    forall k | k in u.t.secrets ensures Owner(u, k.0) {
      OwnerOfNewRows(s, step);
      OwnerStays(s, step, k.0);
    }
  }

  lemma OwnerOfNewRows(s: State, step: Step)
    requires Sound(s) && Enabled(s, step)
    ensures forall path :: path in Apply(s, step).t.leases ==> Apply(s, step).t.leases[path] != Manager
    ensures forall path :: path in Apply(s, step).t.leases ==> Owner(s, Apply(s, step).t.leases[path])
    ensures forall k :: k in Apply(s, step).t.secrets ==> Owner(s, k.0)
  {
  }

  lemma RowsStayAgreed(s: State, step: Step)
    requires Sound(s) && Enabled(s, step)
    ensures RowsAgree(Apply(s, step).t)
  {
    var u := Apply(s, step).t;
    if step.Begin? {
      assert forall i, p :: HoldsPort(u, i, p) ==> HoldsPort(s.t, i, p) || (i == step.id && p == step.port);
    } else {
      assert forall i, p :: HoldsPort(u, i, p) ==> HoldsPort(s.t, i, p);
    }
  }

  lemma {:induction false} RunStaysSound(s: State, run: seq<Step>)
    requires Sound(s) && Legal(s, run) && Patient(s, run)
    ensures Sound(After(s, run))
  {
    if run != [] {
      var before, last := run[..|run| - 1], run[|run| - 1];
      RunStaysSound(s, before);
      FlagsStayTrue(After(s, before), last);
      NamesStayDistinct(After(s, before), last);
      StaysOwned(After(s, before), last);
      RowsStayAgreed(After(s, before), last);
    }
  }

  /** Flags, owners, names and ports stay sound on every interleaving of provisionings,
      failures, compensations and removals that gives no name out while it is still being
      worked on; whenever nothing is running, the tables are consistent. */
  lemma {:induction false} AlwaysSound(run: seq<Step>)
    requires Legal(EMPTY, run) && Patient(EMPTY, run)
    ensures Sound(After(EMPTY, run))
    ensures After(EMPTY, run).running == map[] ==> Consistent(After(EMPTY, run).t)
  {
    RunStaysSound(EMPTY, run);
  }

  // ----------------------------------------------------------------- failures

  lemma OwnStepsKeepOtherLeases(s: State, step: Step)
    requires Enabled(s, step)
    ensures WithoutLeases(Apply(s, step).t.leases, About(s, step)) == WithoutLeases(s.t.leases, About(s, step))
  {
  }

  lemma OwnStepsKeepOtherSecrets(s: State, step: Step)
    requires Enabled(s, step)
    ensures WithoutSecrets(Apply(s, step).t.secrets, About(s, step)) == WithoutSecrets(s.t.secrets, About(s, step))
  {
  }

  lemma OwnStepsKeepOtherAgents(s: State, step: Step)
    requires Enabled(s, step)
    ensures Apply(s, step).t.agents - {About(s, step)} == s.t.agents - {About(s, step)}
    ensures Apply(s, step).t.allocations - {About(s, step)} == s.t.allocations - {About(s, step)}
  {
  }

  /** No step touches a row of any agent but its own. */
  lemma OwnStepsKeepTheRest(s: State, step: Step)
    requires Enabled(s, step)
    ensures Erased(Apply(s, step).t, About(s, step)) == Erased(s.t, About(s, step))
  {
    OwnStepsKeepOtherAgents(s, step);
    OwnStepsKeepOtherLeases(s, step);
    OwnStepsKeepOtherSecrets(s, step);
  }

  /** A failure that has run its course has left no row of its name, and every other row
      as it was. */
  lemma {:induction false} FailureErasesOnlyItsOwn(run: seq<Step>, job: nat)
    requires Legal(EMPTY, run) && Patient(EMPTY, run) && Enabled(After(EMPTY, run), Release(job))
    ensures
      var s := After(EMPTY, run);
      Apply(s, Release(job)).t == Erased(s.t, s.running[job].id)
  {
    AlwaysSound(run);
    var s := After(EMPTY, run);
    ReleaseErases(s, job);
  }

  lemma ReleaseErases(s: State, job: nat)
    requires Sound(s) && Enabled(s, Release(job))
    ensures Apply(s, Release(job)).t == Erased(s.t, s.running[job].id)
  {
    assert JobIsTrue(s.t, s.running[job]);
    var u, v := Apply(s, Release(job)).t, Erased(s.t, s.running[job].id);
    assert u.agents == v.agents && u.leases == v.leases && u.secrets == v.secrets;
  }

  /** Steps of one provisioning, and removals of its agent. */
  ghost predicate Only(run: seq<Step>, job: nat, id: Id)
  {
    forall k :: 0 <= k < |run| ==> if IsRemoval(run[k]) then run[k].id == id else run[k].job == job && !run[k].Begin?
  }

  lemma {:induction false} OwnRunKeepsTheRest(s: State, run: seq<Step>, job: nat)
    requires job in s.running && Legal(s, run) && Only(run, job, s.running[job].id)
    ensures Patient(s, run)
    ensures Erased(After(s, run).t, s.running[job].id) == Erased(s.t, s.running[job].id)
    ensures job in After(s, run).running ==> After(s, run).running[job].id == s.running[job].id
    ensures forall k :: k in After(s, run).running ==> k in s.running
  {
    if run != [] {
      var before := run[..|run| - 1];
      OwnRunKeepsTheRest(s, before, job);
      OwnStepsKeepTheRest(After(s, before), run[|run| - 1]);
    }
  }

  lemma UnknownOwnNothing(s: State, id: Id)
    requires Owned(s) && !Known(s.t, id) && id != Manager && Vacant(s, id)
    ensures Erased(s.t, id) == s.t
  {
  }

  /** A provisioning that fails after any number of its writes, in any order, with or
      without a removal of its agent in between, puts all four tables back exactly. */
  lemma {:induction false} FailureRestoresExactly(s: State, job: nat, id: Id, port: int, run: seq<Step>)
    requires Sound(s) && Enabled(s, Begin(job, id, port)) && Vacant(s, id)
    requires
      var b := Apply(s, Begin(job, id, port));
      Legal(b, run) && Only(run, job, id) && Enabled(After(b, run), Release(job))
    ensures Apply(After(Apply(s, Begin(job, id, port)), run), Release(job)).t == s.t
  {
    var b := Apply(s, Begin(job, id, port));
    FlagsStayTrue(s, Begin(job, id, port));
    NamesStayDistinct(s, Begin(job, id, port));
    StaysOwned(s, Begin(job, id, port));
    RowsStayAgreed(s, Begin(job, id, port));
    OwnRunKeepsTheRest(b, run, job);
    RunStaysSound(b, run);
    ReleaseErases(After(b, run), job);
    OwnStepsKeepTheRest(s, Begin(job, id, port));
    UnknownOwnNothing(s, id);
  }

  /** A provisioning that fails at once has nothing to take back but its name and port. */
  lemma FailingAtOnceTakesNothingBack(s: State, job: nat, id: Id, port: int)
    requires Enabled(s, Begin(job, id, port))
    ensures
      var t := Apply(s, Begin(job, id, port));
      && Enabled(t, Fail(job)) && Enabled(Apply(t, Fail(job)), Release(job))
      && Apply(Apply(t, Fail(job)), Release(job)) == s
  {
    var t := Apply(Apply(s, Begin(job, id, port)), Fail(job));
    assert Apply(t, Release(job)).t.allocations == s.t.allocations;
    assert Apply(t, Release(job)).running == s.running;
  }

  lemma UndisturbedSecrets(s: State, job: nat, id: Id, port: int, password: string, token: string)
    returns (run: seq<Step>)
    requires Enabled(s, Begin(job, id, port))
    ensures Legal(s, run)
         && run == [Begin(job, id, port), Secret(job, "mt5_password", password), Secret(job, "ipc_token", token)]
    ensures
      var t := After(s, run);
      && t.running == s.running[job := Job(id, port, true, false, false, false)]
      && t.t == Allocated(s.t, id, port).(secrets := s.t.secrets[(id, "mt5_password") := password]
                                                              [(id, "ipc_token") := token])
  {
    run := Extended(s, [], Begin(job, id, port));
    run := Extended(s, run, Secret(job, "mt5_password", password));
    run := Extended(s, run, Secret(job, "ipc_token", token));
    assert After(s, run).running == s.running[job := Job(id, port, true, false, false, false)];
  }

  /** A provisioning that nothing disturbs leaves exactly the rows that were asked for. */
  lemma UndisturbedProvisioningWrites(s: State, job: nat, id: Id, agent: Agent, password: string, token: string)
    returns (run: seq<Step>)
    requires Enabled(s, Begin(job, id, agent.port)) && (agent.terminal == "" || agent.terminal !in s.t.leases)
    ensures Legal(s, run) && forall k :: 0 <= k < |run| ==> !IsRemoval(run[k]) && run[k].job == job && !run[k].Fail?
    ensures After(s, run) == State(Provisioned(s.t, id, agent, password, token), s.running)
  {
    run := UndisturbedSecrets(s, job, id, agent.port, password, token);
    if agent.terminal != "" {
      run := Extended(s, run, TakeLease(job, agent.terminal));
    }
    run := Extended(s, run, Register(job, agent));
    run := Extended(s, run, Finish(job));
    assert After(s, run).running == s.running;
  }

  /** A removal that nothing disturbs erases the agent's rows and no others. */
  lemma UndisturbedRemovalErases(s: State, id: Id) returns (run: seq<Step>)
    requires id in s.t.agents
    ensures Legal(s, run) && run == [DropLeases(id), DropSecrets(id), DropAgent(id)]
    ensures After(s, run) == State(Erased(s.t, id), s.running)
  {
    run := Extended(s, [], DropLeases(id));
    run := Extended(s, run, DropSecrets(id));
    run := Extended(s, run, DropAgent(id));
  }

  // ------------------------------------------------------- names taken too early

  /** Steps of other provisionings, whatever they are, and removals of other agents. */
  ghost predicate ByOthers(run: seq<Step>, job: nat, id: Id)
  {
    forall k :: 0 <= k < |run| ==> if IsRemoval(run[k]) then run[k].id != id else run[k].job != job
  }

  /** No step of the others, however many of them fail, takes the name away. */
  ghost predicate KeepsItsName(s: State, job: nat, id: Id)
  {
    forall run :: Legal(s, run) && ByOthers(run, job, id) ==> id in After(s, run).t.allocations
  }

  ghost predicate HeldBy(s: State, job: nat, id: Id)
  {
    id in s.t.allocations && forall k :: k in s.running && k != job ==> s.running[k].id != id
  }

  lemma OtherSparesTheName(s: State, job: nat, id: Id, step: Step)
    requires HeldBy(s, job, id) && Enabled(s, step)
    requires if IsRemoval(step) then step.id != id else step.job != job
    ensures HeldBy(Apply(s, step), job, id)
  {
  }

  lemma {:induction false} OthersSpareTheName(s: State, job: nat, id: Id, run: seq<Step>)
    requires HeldBy(s, job, id) && Legal(s, run) && ByOthers(run, job, id)
    ensures HeldBy(After(s, run), job, id)
  {
    if run != [] {
      OthersSpareTheName(s, job, id, run[..|run| - 1]);
      OtherSparesTheName(After(s, run[..|run| - 1]), job, id, run[|run| - 1]);
    }
  }

  lemma Extended(s: State, run: seq<Step>, step: Step) returns (more: seq<Step>)
    requires Legal(s, run) && Enabled(After(s, run), step)
    ensures more == run + [step] && Legal(s, more) && After(s, more) == Apply(After(s, run), step)
    ensures Patient(s, run) && Quiet(After(s, run), step) ==> Patient(s, more)
  {
    more := run + [step];
    assert more[..|run|] == run;
  }

  ghost predicate AllOf(run: seq<Step>, k: nat)
  {
    forall i :: 0 <= i < |run| ==> !IsRemoval(run[i]) && run[i].job == k
  }

  /** The rest of a compensation takes the name away, whoever holds it now. */
  lemma UndoTakesTheName(s: State, run: seq<Step>, k: nat) returns (more: seq<Step>)
    requires Legal(s, run) && AllOf(run, k) && Undoing(After(s, run), k)
    ensures Legal(s, more) && AllOf(more, k)
    ensures After(s, run).running[k].id !in After(s, more).t.allocations
    decreases var j := After(s, run).running[k]; (if j.lease then 1 else 0) + if j.secret then 1 else 0
  {
    var j := After(s, run).running[k];
    if j.agent {
      more := Extended(s, run, UndoAgent(k));
    } else if j.lease {
      more := Extended(s, run, UndoLeases(k));
      more := UndoTakesTheName(s, more, k);
    } else if j.secret {
      more := Extended(s, run, UndoSecrets(k));
      more := UndoTakesTheName(s, more, k);
    } else {
      more := Extended(s, run, Release(k));
    }
  }

  lemma FailureTakesTheName(s: State, k: nat) returns (run: seq<Step>)
    requires k in s.running
    ensures Legal(s, run) && AllOf(run, k) && s.running[k].id !in After(s, run).t.allocations
  {
    run := [];
    if !s.running[k].undoing {
      run := Extended(s, run, Fail(k));
    }
    run := UndoTakesTheName(s, run, k);
  }

  /** A name just given out is safe from the failures of all others exactly when no other
      provisioning was still at work on it. */
  lemma NameIsSafeExactlyWhenVacant(s: State, job: nat, id: Id, port: int)
    requires Enabled(s, Begin(job, id, port))
    ensures KeepsItsName(Apply(s, Begin(job, id, port)), job, id) <==> Vacant(s, id)
  {
    var b := Apply(s, Begin(job, id, port));
    if Vacant(s, id) {
      forall run | Legal(b, run) && ByOthers(run, job, id) ensures id in After(b, run).t.allocations {
        OthersSpareTheName(b, job, id, run);
      }
    } else {
      var k :| k in s.running && s.running[k].id == id;
      var run := FailureTakesTheName(b, k);
      assert ByOthers(run, job, id) && id !in After(b, run).t.allocations;
    }
  }

  const AGENT := Agent("first", "", FIRST_PORT)

  /** Such a name is given out: the agent is removed between its registration and the
      announcement that fails. */
  lemma NamesAreTakenTooEarly() returns (run: seq<Step>)
    ensures Legal(EMPTY, run) && Patient(EMPTY, run)
    ensures Enabled(After(EMPTY, run), Begin(1, Numbered(0), FIRST_PORT)) && !Vacant(After(EMPTY, run), Numbered(0))
  {
    run := Extended(EMPTY, [], Begin(0, Numbered(0), FIRST_PORT));
    run := Extended(EMPTY, run, Register(0, AGENT));
    run := Extended(EMPTY, run, DropAgent(Numbered(0)));
    assert After(EMPTY, run).running[0].id == Numbered(0);
  }

  /** Removing a provisioned agent undoes its provisioning exactly. */
  lemma RemovalUndoesProvisioning(t: Tables, id: Id, agent: Agent, password: string, token: string)
    requires Consistent(t) && !Known(t, id) && id != Manager
    requires agent.terminal == "" || agent.terminal !in t.leases
    ensures Erased(Provisioned(t, id, agent, password, token), id) == t
  {
    ErasingUndoesLeases(t, id, agent.terminal);
    ErasingUndoesSecrets(t, id, password, token);
    assert t.agents[id := agent] - {id} == t.agents;
    assert t.allocations[id := agent.port] - {id} == t.allocations;
  }

  lemma ErasingUndoesLeases(t: Tables, id: Id, terminal: string)
    requires Consistent(t) && !Known(t, id) && (terminal == "" || terminal !in t.leases)
    ensures WithoutLeases(if terminal == "" then t.leases else t.leases[terminal := id], id) == t.leases
  {
  }

  lemma ErasingUndoesSecrets(t: Tables, id: Id, password: string, token: string)
    requires Consistent(t) && !Known(t, id) && id != Manager
    ensures WithoutSecrets(t.secrets[(id, "mt5_password") := password][(id, "ipc_token") := token], id) == t.secrets
  {
  }
}
