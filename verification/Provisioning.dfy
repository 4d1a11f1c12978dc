/** Provisioning an agent: a sequence of writes to four tables and a directory that is
    undone when any of them fails. */
module Provisioning {
  import opened Sums

  const FIRST_PORT := 8081
  const LAST_PORT := 8999
  const NAMED_IDS := 1000

  datatype Id = Manager | Numbered(n: nat) | Random(tag: string)

  datatype Agent = Agent(name: string, terminal: string, port: int)

  datatype Tables = Tables(agents: map<Id, Agent>, allocations: map<Id, int>,
                           leases: map<string, Id>, secrets: map<(Id, string), string>)

  /** Where a provisioning fails, if anywhere. */
  datatype Stage = MakeDir | WriteConfig | Password | Token | Lease | Persist | Announce | Nowhere

  /** What a provisioning has done so far, as its flags record it. */
  datatype Flags = Flags(secret: bool, lease: bool, agent: bool)

  ghost predicate Known(t: Tables, id: Id) { id in t.agents || id in t.allocations }

  ghost predicate HoldsPort(t: Tables, id: Id, port: int)
  {
    (id in t.agents && t.agents[id].port == port) || (id in t.allocations && t.allocations[id] == port)
  }

  ghost predicate PortsDistinct(t: Tables)
  {
    forall i, j, port :: HoldsPort(t, i, port) && HoldsPort(t, j, port) ==> i == j
  }

  /** Every lease and secret belongs to a known agent or the manager, whose scope is no
      agent's; every agent is allocated, and no two hold the same port. */
  ghost predicate Consistent(t: Tables)
  {
    && (forall path :: path in t.leases ==> Known(t, t.leases[path]))
    && (forall k :: k in t.secrets ==> k.0 == Manager || Known(t, k.0))
    && !Known(t, Manager) && t.agents.Keys <= t.allocations.Keys
    && PortsDistinct(t)
  }

  function WithoutLeases(leases: map<string, Id>, id: Id): map<string, Id>
  {
    map path | path in leases && leases[path] != id :: leases[path]
  }

  function WithoutSecrets(secrets: map<(Id, string), string>, id: Id): map<(Id, string), string>
  {
    map k | k in secrets && k.0 != id :: secrets[k]
  }

  /** All rows of one agent gone. */
  function Erased(t: Tables, id: Id): Tables
  {
    Tables(t.agents - {id}, t.allocations - {id}, WithoutLeases(t.leases, id), WithoutSecrets(t.secrets, id))
  }

  /** The compensation: only what the flags say was done is undone. */
  function Compensated(t: Tables, id: Id, done: Flags): Tables
  {
    Tables(if done.agent then t.agents - {id} else t.agents, t.allocations - {id},
           if done.lease then WithoutLeases(t.leases, id) else t.leases,
           if done.secret then WithoutSecrets(t.secrets, id) else t.secrets)
  }

  function Allocated(t: Tables, id: Id, port: int): Tables { t.(allocations := t.allocations[id := port]) }

  predicate PortTaken(t: Tables, port: int)
  {
    || (exists id :: id in t.agents && t.agents[id].port == port)
    || (exists id :: id in t.allocations && t.allocations[id] == port)
  }

  predicate IdTaken(t: Tables, id: Id) { id in t.agents || id in t.allocations }

  class AgentProvisioner {
    var agents: map<Id, Agent>
    var allocations: map<Id, int>
    var leases: map<string, Id>
    var secrets: map<(Id, string), string>

    /** The files in each data directory, and the archived directories. */
    var dirs: map<Id, set<string>>
    var archive: seq<(Id, set<string>)>

    ghost function Rows(): Tables
      reads this
    {
      Tables(agents, allocations, leases, secrets)
    }

    constructor ()
      ensures Rows() == Tables(map[], map[], map[], map[]) && dirs == map[] && archive == [] && Consistent(Rows())
    {
      agents, allocations, leases, secrets, dirs, archive := map[], map[], map[], map[], map[], [];
    }

    /** The lowest free name and the lowest free port, taken together. A random name that
        is allocated already fails the insert. */
    method AllocateIdentity(tag: string) returns (id: Id, port: Option<int>)
      modifies this`allocations
      ensures IsLowestName(old(Rows()), id, tag)
      ensures port.Some? <==> SomePortFree(old(Rows())) && id !in old(allocations)
      ensures port.Some? ==> IsLowestPort(old(Rows()), port.value)
      ensures Rows() == if port.Some? then Allocated(old(Rows()), id, port.value) else old(Rows())
    {
      var t := Tables(agents, allocations, leases, secrets);
      var i: nat := 0;
      while i < NAMED_IDS && IdTaken(t, Numbered(i))
        invariant i <= NAMED_IDS && forall j: nat :: j < i ==> IdTaken(t, Numbered(j))
      {
        i := i + 1;
      }
      id := if i < NAMED_IDS then Numbered(i) else Random(tag);
      var p := FIRST_PORT;
      while p <= LAST_PORT && PortTaken(t, p)
        invariant FIRST_PORT <= p <= LAST_PORT + 1 && forall q :: FIRST_PORT <= q < p ==> PortTaken(t, q)
      {
        p := p + 1;
      }
      PortsInUse(t);
      if p > LAST_PORT || id in allocations {
        return id, None;
      }
      allocations := allocations[id := p];
      port := Some(p);
    }

    /** The writes in order, up to the one that fails. */
    method Write(id: Id, agent: Agent, password: string, token: string, fail: Stage)
      returns (finished: bool, done: Flags)
      modifies this`agents, this`leases, this`secrets, this`dirs
      ensures WrittenFrom(old(Rows()), Rows(), id, agent, done)
      // the flags say exactly how far the writes came
      ensures done.secret <==> id !in old(dirs) && fail !in {MakeDir, WriteConfig, Password}
      ensures done.lease <==> done.secret && fail !in {Token, Lease}
                              && agent.terminal != "" && agent.terminal !in old(leases)
      ensures done.agent <==> done.secret && fail !in {Token, Lease, Persist}
                              && (agent.terminal != "" ==> done.lease)
      ensures finished ==>
                && secrets == old(secrets)[(id, "mt5_password") := password][(id, "ipc_token") := token]
      ensures finished <==>
                fail.Nowhere? && id !in old(dirs) && (agent.terminal == "" || agent.terminal !in old(leases))
      ensures finished ==> dirs == old(dirs)[id := {"config.yaml"}]
      ensures !finished ==> dirs - {id} == old(dirs) - {id}
    {
      finished, done := false, Flags(false, false, false);
      var ready := MakeDirectory(id, fail);
      if !ready {
        return;
      }
      var kept, stored := StoreSecrets(id, password, token, fail);
      done := done.(secret := kept);
      if !stored {
        return;
      }
      var leased, free := TakeLease(id, agent.terminal, fail);
      done := done.(lease := leased);
      if !free || fail.Persist? {
        return;
      }
      agents, done := agents[id := agent], done.(agent := true);
      finished := !fail.Announce?;
    }

    method MakeDirectory(id: Id, fail: Stage) returns (ready: bool)
      modifies this`dirs
      ensures ready <==> !fail.MakeDir? && !fail.WriteConfig? && id !in old(dirs)
      ensures ready ==> dirs == old(dirs)[id := {"config.yaml"}]
      ensures dirs - {id} == old(dirs) - {id}
    {
      if fail.MakeDir? || id in dirs {
        return false;
      }
      dirs := dirs[id := {}];
      if fail.WriteConfig? {
        return false;
      }
      dirs := dirs[id := {"config.yaml"}];
      ready := true;
    }

    method StoreSecrets(id: Id, password: string, token: string, fail: Stage) returns (kept: bool, stored: bool)
      modifies this`secrets
      ensures kept <==> !fail.Password?
      ensures stored <==> !fail.Password? && !fail.Token?
      ensures secrets == if !kept then old(secrets)
                         else if !stored then old(secrets)[(id, "mt5_password") := password]
                         else old(secrets)[(id, "mt5_password") := password][(id, "ipc_token") := token]
    {
      if fail.Password? {
        return false, false;
      }
      secrets := secrets[(id, "mt5_password") := password];
      if fail.Token? {
        return true, false;
      }
      secrets := secrets[(id, "ipc_token") := token];
      kept, stored := true, true;
    }

    /** A terminal that is leased already, or a failing insert, stops the provisioning. */
    method TakeLease(id: Id, terminal: string, fail: Stage) returns (leased: bool, free: bool)
      modifies this`leases
      ensures free <==> !fail.Lease? && (terminal == "" || terminal !in old(leases))
      ensures leased <==> free && terminal != ""
      ensures leases == if leased then old(leases)[terminal := id] else old(leases)
    {
      leased, free := false, !fail.Lease? && (terminal == "" || terminal !in leases);
      if free && terminal != "" {
        leases, leased := leases[terminal := id], true;
      }
    }

    /** The except block: what was done is undone, and the directory removed in any case. */
    method Compensate(id: Id, done: Flags)
      modifies this`agents, this`allocations, this`leases, this`secrets, this`dirs
      ensures Rows() == Compensated(old(Rows()), id, done) && dirs == old(dirs) - {id}
    {
      if done.agent {
        agents, allocations := agents - {id}, allocations - {id};
      }
      if done.lease {
        leases := WithoutLeases(leases, id);
      }
      if done.secret {
        secrets := WithoutSecrets(secrets, id);
      }
      allocations := allocations - {id};
      assert allocations == old(allocations) - {id};
      dirs := dirs - {id};
    }

    /** Either everything is there, or the four tables are exactly as before. */
    method Provision(name: string, terminal: string, password: string, token: string, tag: string,
                     slotFree: bool, fail: Stage) returns (created: Option<Id>, ghost tried: Option<Id>)
      requires Consistent(Rows())
      modifies this
      ensures Consistent(Rows())
      ensures created.None? ==> Rows() == old(Rows())
      ensures created.Some? ==>
                && !Known(old(Rows()), created.value) && created.value in agents
                && Rows() == Provisioned(old(Rows()), created.value, agents[created.value], password, token)
                && agents[created.value].name == name && agents[created.value].terminal == terminal
                && allocations == old(allocations)[created.value := agents[created.value].port]
                && agents == old(agents)[created.value := agents[created.value]]
                && leases == (if terminal == "" then old(leases) else old(leases)[terminal := created.value])
                && secrets == old(secrets)[(created.value, "mt5_password") := password]
                                          [(created.value, "ipc_token") := token]
                && dirs == old(dirs)[created.value := {"config.yaml"}]
      // it succeeds exactly when a slot, a port and a name are free and no step fails
      ensures tried.Some? <==> slotFree && SomePortFree(old(Rows())) && SomeNameFree(old(Rows()), tag)
      ensures created.Some? <==>
                && tried.Some? && fail.Nowhere? && tried.value !in old(dirs)
                && (terminal == "" || terminal !in old(leases))
      // and takes the lowest name and port
      ensures tried.Some? ==> IsLowestName(old(Rows()), tried.value, tag)
      ensures created.Some? ==> created == tried && IsLowestPort(old(Rows()), agents[created.value].port)
      // a failure keeps the directories exactly when the name it tried had none before
      ensures created.None? ==> (dirs == old(dirs) <==> tried.None? || tried.value !in old(dirs))
      ensures created.None? && tried.Some? ==> dirs == old(dirs) - {tried.value} && !Known(old(Rows()), tried.value)
      ensures archive == old(archive)
    {
      created, tried := None, None;
      if !slotFree {
        return;
      }
      var id, port := AllocateIdentity(tag);
      if port.None? {
        return;
      }
      tried := Some(id);
      assert !Known(old(Rows()), id);
      PortsInUse(old(Rows()));
      AllocatedIsConsistent(old(Rows()), id, port.value);
      var agent := Agent(name, terminal, port.value);
      var finished, done := Write(id, agent, password, token, fail);
      if finished {
        created := Some(id);
        ProvisionedIsConsistent(old(Rows()), id, agent, password, token);
        assert Rows() == Provisioned(old(Rows()), id, agent, password, token);
        return;
      }
      ghost var written := Rows();
      Compensate(id, done);
      CompensationRestores(old(Rows()), written, id, agent, done);
      assert id !in old(dirs) ==> dirs == old(dirs);
    }

    /** Leases and secrets go first, then the directory is archived; only then the agent. */
    method Deprovision(id: Id, archiveFails: bool)
      requires Consistent(Rows()) && id != Manager
      modifies this
      ensures Consistent(Rows())
      ensures id !in old(agents) ==> Rows() == old(Rows()) && dirs == old(dirs) && archive == old(archive)
      ensures id in old(agents) && !(archiveFails && id in old(dirs)) ==>
                && Rows() == Erased(old(Rows()), id) && dirs == old(dirs) - {id}
                && archive == old(archive) + if id in old(dirs) then [(id, old(dirs)[id])] else []
      ensures id in old(agents) && archiveFails && id in old(dirs) ==>
                && Rows() == old(Rows()).(leases := WithoutLeases(old(leases), id),
                                          secrets := WithoutSecrets(old(secrets), id))
                && dirs == old(dirs) && archive == old(archive)
    {
      if id !in agents {
        return;
      }
      leases := WithoutLeases(leases, id);
      secrets := WithoutSecrets(secrets, id);
      DroppingRowsIsConsistent(old(Rows()), id);
      if id in dirs {
        if archiveFails {
          return;
        }
        archive := archive + [(id, dirs[id])];
        dirs := dirs - {id};
      }
      agents, allocations := agents - {id}, allocations - {id};
      ErasedIsConsistent(old(Rows()), id);
      assert dirs == old(dirs) - {id};
    }
  }

  ghost predicate PortInUse(t: Tables, port: int) { exists id :: HoldsPort(t, id, port) }

  lemma PortsInUse(t: Tables)
    ensures forall port :: PortTaken(t, port) <==> PortInUse(t, port)
  {
    forall port ensures PortTaken(t, port) <==> PortInUse(t, port) {
      if PortTaken(t, port) {
        var id :| (id in t.agents && t.agents[id].port == port) || (id in t.allocations && t.allocations[id] == port);
        assert HoldsPort(t, id, port);
      }
    }
  }

  ghost predicate SomePortFree(t: Tables) { exists p :: 8081 <= p <= 8999 && !PortInUse(t, p) }

  ghost predicate IsLowestPort(t: Tables, port: int)
  {
    8081 <= port <= 8999 && !PortInUse(t, port) && forall p :: 8081 <= p < port ==> PortInUse(t, p)
  }

  /** One of the thousand numbered names, or the random one drawn. */
  ghost predicate SomeNameFree(t: Tables, tag: string)
  {
    (exists n: nat :: n < 1000 && !Known(t, Numbered(n))) || Random(tag) !in t.allocations
  }

  ghost predicate IsLowestName(t: Tables, id: Id, tag: string)
  {
    match id
    case Numbered(n) => n < 1000 && !Known(t, id) && forall i: nat :: i < n ==> Known(t, Numbered(i))
    case Random(drawn) => drawn == tag && forall i: nat :: i < 1000 ==> Known(t, Numbered(i))
    case Manager => false
  }

  function Provisioned(t: Tables, id: Id, agent: Agent, password: string, token: string): Tables
  {
    Tables(t.agents[id := agent], t.allocations[id := agent.port],
           if agent.terminal == "" then t.leases else t.leases[agent.terminal := id],
           t.secrets[(id, "mt5_password") := password][(id, "ipc_token") := token])
  }

  /** The flags say truly which tables got rows, all of them the agent's own. */
  ghost predicate WrittenFrom(t: Tables, w: Tables, id: Id, agent: Agent, done: Flags)
  {
    && w.allocations == t.allocations
    && w.agents == (if done.agent then t.agents[id := agent] else t.agents)
    && (done.lease ==> agent.terminal !in t.leases)
    && w.leases == (if done.lease then t.leases[agent.terminal := id] else t.leases)
    && (!done.secret ==> w.secrets == t.secrets)
    && (forall k: (Id, string) :: k.0 != id ==>
          (k in w.secrets <==> k in t.secrets) && (k in w.secrets ==> w.secrets[k] == t.secrets[k]))
  }

  /** Whatever was written for an unknown agent, the compensation takes back exactly. */
  lemma CompensationRestores(t: Tables, w: Tables, id: Id, agent: Agent, done: Flags)
    requires Consistent(t) && !Known(t, id) && id != Manager
    requires WrittenFrom(Allocated(t, id, agent.port), w, id, agent, done)
    ensures Compensated(w, id, done) == t
  {
    var u := Compensated(w, id, done);
    assert u.agents == t.agents && u.allocations == t.allocations;
    assert u.leases == t.leases by {
      assert forall path :: path in t.leases ==> t.leases[path] != id;
    }
    assert u.secrets == t.secrets by {
      assert forall k :: k in t.secrets ==> k.0 != id;
    }
  }

  lemma AllocatedIsConsistent(t: Tables, id: Id, port: int)
    requires Consistent(t) && !Known(t, id) && id != Manager && !PortTaken(t, port)
    ensures Consistent(Allocated(t, id, port))
  {
    var u := Allocated(t, id, port);
    assert forall i, p :: HoldsPort(u, i, p) ==> HoldsPort(t, i, p) || (i == id && p == port);
  }

  lemma ProvisionedIsConsistent(t: Tables, id: Id, agent: Agent, password: string, token: string)
    requires Consistent(t) && !Known(t, id) && id != Manager && !PortTaken(t, agent.port)
    ensures Consistent(Provisioned(t, id, agent, password, token))
  {
    var u := Provisioned(t, id, agent, password, token);
    assert forall i, p :: HoldsPort(u, i, p) ==> HoldsPort(t, i, p) || (i == id && p == agent.port);
  }

  lemma DroppingRowsIsConsistent(t: Tables, id: Id)
    requires Consistent(t)
    ensures Consistent(t.(leases := WithoutLeases(t.leases, id), secrets := WithoutSecrets(t.secrets, id)))
  {
    var u := t.(leases := WithoutLeases(t.leases, id), secrets := WithoutSecrets(t.secrets, id));
    assert forall i, p :: HoldsPort(u, i, p) ==> HoldsPort(t, i, p);
  }

  lemma ErasedIsConsistent(t: Tables, id: Id)
    requires Consistent(t)
    ensures Consistent(Erased(t, id))
  {
    var u := Erased(t, id);
    assert forall i, p :: HoldsPort(u, i, p) ==> HoldsPort(t, i, p);
  }
}
