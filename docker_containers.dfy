/**
  The elastic-agent plugin's registry of the worker containers it has launched: an
  in-memory map from container name to container record, reconciled against the container
  engine (targeted refresh, one-shot full hydration, termination) and against the
  orchestrator's agents (the two grace-period sweeps).
 */
module Docker {
  import opened Wrappers
  import DockerClient

  /** A tracked container: its name (also the orchestrator's elastic agent id) and creation time. */
  datatype DockerContainer = DockerContainer(name: string, createdAt: int)

  /** An agent as the orchestrator reports it, reduced to the elastic agent id it carries. */
  datatype Agent = Agent(elasticAgentId: string)

  type Registry = map<string, DockerContainer>

  /** True when some agent of `agents` carries the elastic agent id `id`. */
  predicate ContainsAgentWithId(agents: seq<Agent>, id: string)
  {
    exists a :: a in agents && a.elasticAgentId == id
  }

  /** Every record is filed under its own name, as `register` files it. */
  predicate KeyedByName(m: Registry)
  {
    forall k | k in m :: m[k].name == k
  }

  /** `createdAt + period` is strictly before `now` (Joda's `isBefore`). */
  predicate Expired(createdAt: int, period: int, now: int)
  {
    createdAt + period < now
  }

  /** `createdAt + period` is strictly after `now` (Joda's `isAfter`). */
  predicate WithinGrace(createdAt: int, period: int, now: int)
  {
    createdAt + period > now
  }

  /** The registered names that no known agent carries: the ones the timeout sweep inspects. */
  function Candidates(m: Registry, known: seq<Agent>): set<string>
  {
    set k | k in m && !ContainsAgentWithId(known, k)
  }

  /** The engine can be asked about every candidate of the timeout sweep. */
  predicate EngineTracks(m: Registry, created: map<string, int>, known: seq<Agent>)
  {
    forall k | k in m && !ContainsAgentWithId(known, k) :: k in created
  }

  /**
    The containers the timeout sweep selects: registered, carried by no known agent, and
    whose engine-reported creation time plus the period is strictly before `now`; each is
    recorded with the engine's creation time.
   */
  function Unregistered(m: Registry, created: map<string, int>, known: seq<Agent>, period: int, now: int): Registry
    requires EngineTracks(m, created, known)
  {
    map k | k in m && !ContainsAgentWithId(known, k) && Expired(created[k], period, now)
      :: DockerContainer(k, created[k])
  }

  /** The records the full hydration registers for the names in `names`. */
  function Hydration(created: map<string, int>, names: set<string>): Registry
  {
    map k | k in names && k in created :: DockerContainer(k, created[k])
  }

  /** An agent whose container is registered and still strictly inside its grace window. */
  predicate IsRecent(m: Registry, a: Agent, period: int, now: int)
  {
    a.elasticAgentId in m && WithinGrace(m[a.elasticAgentId].createdAt, period, now)
  }

  /** The agents of `agents`, in their order, that `IsRecent` keeps. */
  function RecentAgents(m: Registry, agents: seq<Agent>, period: int, now: int): seq<Agent>
    decreases |agents|
  {
    if agents == [] then []
    else
      var last := agents[|agents| - 1];
      RecentAgents(m, agents[..|agents| - 1], period, now)
        + (if IsRecent(m, last, period, now) then [last] else [])
  }

  class DockerContainers {
    var containers: Registry
    var refreshed: bool

    ghost predicate Valid()
      reads this
    {
      KeyedByName(containers)
    }

    constructor ()
      ensures Valid()
      ensures containers == map[] && !refreshed
    {
      containers := map[];
      refreshed := false;
    }

    /** Launches a container named `name` at `now` and registers its record. */
    method Create(engine: DockerClient.Engine, name: string, now: int) returns (container: DockerContainer)
      requires Valid() && engine.Valid()
      requires name !in engine.created
      modifies this, engine
      ensures Valid() && engine.Valid()
      ensures container == DockerContainer(name, now)
      ensures Find(container.name) == Some(container)
      ensures containers == old(containers)[name := container]
      ensures refreshed == old(refreshed)
      ensures engine.created == old(engine.created)[name := now]
      ensures engine.labelled == old(engine.labelled) + {name}
      ensures engine.queries == old(engine.queries)
    {
      var createdAt := engine.Launch(name, now);
      container := DockerContainer(name, createdAt);
      Register(container);
    }

    /** Registers `id` from the engine's record of it, unless it is registered already. */
    method Refresh(engine: DockerClient.Engine, id: string)
      requires Valid()
      requires id in containers || id in engine.created
      modifies this, engine`queries
      ensures Valid()
      ensures refreshed == old(refreshed)
      ensures old(id in containers) ==>
                containers == old(containers) && engine.queries == old(engine.queries)
      ensures old(id !in containers) ==>
                && containers == old(containers)[id := DockerContainer(id, engine.created[id])]
                && engine.queries == old(engine.queries) + 1
    {
      if id !in containers {
        var createdAt := engine.Inspect(id);
        Register(DockerContainer(id, createdAt));
      }
    }

    /** Removes `id` from the registry, having the engine remove it first when it is registered. */
    method Terminate(engine: DockerClient.Engine, id: string)
      requires Valid() && engine.Valid()
      modifies this, engine
      ensures Valid() && engine.Valid()
      ensures refreshed == old(refreshed)
      ensures containers == old(containers) - {id}
      ensures engine.queries == old(engine.queries)
      ensures old(id in containers) ==>
                engine.created == old(engine.created) - {id} && engine.labelled == old(engine.labelled) - {id}
      ensures old(id !in containers) ==>
                engine.created == old(engine.created) && engine.labelled == old(engine.labelled)
    {
      if id in containers {
        var container := containers[id];
        engine.Remove(container.name);
      }
      containers := containers - {id};
    }

    /**
      Terminates every registered container that no known agent carries and whose
      engine-reported creation time plus `period` is strictly before `now`.
     */
    method TerminateUnregisteredInstances(engine: DockerClient.Engine, knownAgents: seq<Agent>, period: int, now: int)
      requires Valid() && engine.Valid()
      requires EngineTracks(containers, engine.created, knownAgents)
      modifies this, engine
      ensures Valid() && engine.Valid()
      ensures refreshed == old(refreshed)
      ensures containers
                == old(containers) - Unregistered(old(containers), old(engine.created), knownAgents, period, now).Keys
      ensures engine.created
                == old(engine.created) - Unregistered(old(containers), old(engine.created), knownAgents, period, now).Keys
      ensures engine.labelled
                == old(engine.labelled) - Unregistered(old(containers), old(engine.created), knownAgents, period, now).Keys
      ensures engine.queries == old(engine.queries) + |Candidates(old(containers), knownAgents)|
    {
      var toTerminate := UnregisteredAfterTimeout(engine, knownAgents, period, now);
      if |toTerminate.containers| == 0 {
        return;
      }
      TerminateAll(engine, toTerminate.containers);
    }

    /** Terminates, one after another, every container recorded in `victims`. */
    method TerminateAll(engine: DockerClient.Engine, victims: Registry)
      requires Valid() && engine.Valid()
      requires KeyedByName(victims) && victims.Keys <= containers.Keys
      modifies this, engine
      ensures Valid() && engine.Valid()
      ensures refreshed == old(refreshed)
      ensures containers == old(containers) - victims.Keys
      ensures engine.created == old(engine.created) - victims.Keys
      ensures engine.labelled == old(engine.labelled) - victims.Keys
      ensures engine.queries == old(engine.queries)
    {
      var names := victims.Keys;
      while names != {}
        invariant Valid() && engine.Valid()
        invariant names <= victims.Keys
        invariant names <= containers.Keys
        invariant refreshed == old(refreshed)
        invariant containers == old(containers) - (victims.Keys - names)
        invariant engine.created == old(engine.created) - (victims.Keys - names)
        invariant engine.labelled == old(engine.labelled) - (victims.Keys - names)
        invariant engine.queries == old(engine.queries)
        decreases names
      {
        var name :| name in names;
        assert victims.Keys - (names - {name}) == (victims.Keys - names) + {name};
        Terminate(engine, victims[name].name);
        names := names - {name};
      }
    }

    /** The agents, in their order, whose container is registered and still inside its grace window. */
    method InstancesCreatedAfterTimeout(agents: seq<Agent>, period: int, now: int) returns (oldAgents: seq<Agent>)
      ensures oldAgents == RecentAgents(containers, agents, period, now)
    {
      oldAgents := [];
      var i := 0;
      while i < |agents|
        invariant 0 <= i <= |agents|
        invariant oldAgents == RecentAgents(containers, agents[..i], period, now)
      {
        var agent := agents[i];
        assert agents[..i + 1][..i] == agents[..i];
        if agent.elasticAgentId !in containers {
          i := i + 1;
          continue;
        }
        var container := containers[agent.elasticAgentId];
        if WithinGrace(container.createdAt, period, now) {
          oldAgents := oldAgents + [agent];
        }
        i := i + 1;
      }
      assert agents[..|agents|] == agents;
    }

    /** On its first call only, registers every labelled container the engine lists. */
    method RefreshAll(engine: DockerClient.Engine)
      requires Valid() && engine.Valid()
      modifies this, engine`queries
      ensures Valid()
      ensures refreshed
      ensures old(refreshed) ==> containers == old(containers) && engine.queries == old(engine.queries)
      ensures !old(refreshed) ==>
                && containers == old(containers) + Hydration(engine.created, engine.labelled)
                && engine.queries == old(engine.queries) + 1 + |engine.labelled|
    {
      if !refreshed {
        var names := engine.ListContainers();
        var i := 0;
        ghost var listed: set<string> := {};
        while i < |names|
          invariant 0 <= i <= |names|
          invariant Valid()
          invariant forall n :: n in listed <==> n in names[..i]
          invariant containers == old(containers) + Hydration(engine.created, listed)
          invariant engine.queries == old(engine.queries) + 1 + i
        {
          var createdAt := engine.Inspect(names[i]);
          assert names[..i + 1] == names[..i] + [names[i]];
          HydrationStep(engine.created, listed, names[i]);
          Register(DockerContainer(names[i], createdAt));
          listed := listed + {names[i]};
          i := i + 1;
        }
        assert names[..|names|] == names;
        assert listed == engine.labelled;
        refreshed := true;
      }
    }

    /** Files `container` under its name, replacing any record already filed there. */
    method Register(container: DockerContainer)
      requires Valid()
      modifies this`containers
      ensures Valid()
      ensures containers == old(containers)[container.name := container]
    {
      containers := containers[container.name := container];
    }

    /**
      A fresh registry holding the containers the timeout sweep selects, each recorded with
      the engine's creation time; the engine is inspected once per candidate.
     */
    method UnregisteredAfterTimeout(engine: DockerClient.Engine, knownAgents: seq<Agent>, period: int, now: int)
      returns (unregistered: DockerContainers)
      requires EngineTracks(containers, engine.created, knownAgents)
      modifies engine`queries
      ensures fresh(unregistered) && unregistered.Valid()
      ensures unregistered.containers == Unregistered(containers, engine.created, knownAgents, period, now)
      ensures engine.queries == old(engine.queries) + |Candidates(containers, knownAgents)|
    {
      unregistered := new DockerContainers();
      var names := containers.Keys;
      ghost var inspected: set<string> := {};
      while names != {}
        invariant names <= containers.Keys
        invariant fresh(unregistered) && unregistered.Valid()
        invariant unregistered.containers == Unregistered(containers - names, engine.created, knownAgents, period, now)
        invariant forall k :: k in inspected <==> k in containers && k !in names && !ContainsAgentWithId(knownAgents, k)
        invariant engine.queries == old(engine.queries) + |inspected|
        decreases names
      {
        var name :| name in names;
        UnregisteredStep(containers, engine.created, knownAgents, period, now, names, name);
        if !ContainsAgentWithId(knownAgents, name) {
          var createdAt := engine.Inspect(name);
          assert name !in inspected;
          inspected := inspected + {name};
          if Expired(createdAt, period, now) {
            unregistered.Register(DockerContainer(name, createdAt));
          }
        }
        names := names - {name};
      }
      assert containers - {} == containers;
      assert inspected == Candidates(containers, knownAgents);
    }

    /** Whether `agentId` is registered. */
    function HasContainer(agentId: string): (b: bool)
      reads this
      requires Valid()
      ensures b <==> Find(agentId).Some?
    {
      agentId in containers
    }

    /** The record registered under `agentId`, if any; it carries that name. */
    function Find(agentId: string): (r: Option<DockerContainer>)
      reads this
      requires Valid()
      ensures r.Some? <==> agentId in containers
      ensures r.Some? ==> r.value == containers[agentId] && r.value.name == agentId
    {
      if agentId in containers then Some(containers[agentId]) else None
    }
  }

  /** Hydrating one more listed name adds exactly that name's record. */
  lemma HydrationStep(created: map<string, int>, listed: set<string>, name: string)
    requires name in created
    ensures Hydration(created, listed + {name})
            == Hydration(created, listed)[name := DockerContainer(name, created[name])]
  {
  }

  /** Taking one more name into the sweep adds its record exactly when it is selected. */
  lemma UnregisteredStep(m: Registry, created: map<string, int>, known: seq<Agent>, period: int, now: int,
                         names: set<string>, name: string)
    requires EngineTracks(m, created, known)
    requires name in names && name in m
    ensures EngineTracks(m - names, created, known) && EngineTracks(m - (names - {name}), created, known)
    ensures Unregistered(m - (names - {name}), created, known, period, now)
            == if !ContainsAgentWithId(known, name) && Expired(created[name], period, now)
               then Unregistered(m - names, created, known, period, now)[name := DockerContainer(name, created[name])]
               else Unregistered(m - names, created, known, period, now)
  {
  }

  /** An agent is returned exactly when it is one of the inputs and its container is still in its grace window. */
  lemma {:induction false} RecentAgentsMembership(m: Registry, agents: seq<Agent>, period: int, now: int, a: Agent)
    ensures a in RecentAgents(m, agents, period, now) <==> a in agents && IsRecent(m, a, period, now)
    decreases |agents|
  {
    if agents != [] {
      var init := agents[..|agents| - 1];
      RecentAgentsMembership(m, init, period, now, a);
      assert agents == init + [agents[|agents| - 1]];
    }
  }

  /** The filter keeps the input order: filtering a concatenation concatenates the filtered parts. */
  lemma {:induction false} RecentAgentsAppend(m: Registry, xs: seq<Agent>, ys: seq<Agent>, period: int, now: int)
    ensures RecentAgents(m, xs + ys, period, now) == RecentAgents(m, xs, period, now) + RecentAgents(m, ys, period, now)
    decreases |ys|
  {
    if ys == [] {
      assert xs + ys == xs;
    } else {
      var init := ys[..|ys| - 1];
      assert (xs + ys)[..|xs + ys| - 1] == xs + init;
      RecentAgentsAppend(m, xs, init, period, now);
    }
  }

  /** The filter returns no more agents than it is given. */
  lemma {:induction false} RecentAgentsLength(m: Registry, agents: seq<Agent>, period: int, now: int)
    ensures |RecentAgents(m, agents, period, now)| <= |agents|
    decreases |agents|
  {
    if agents != [] {
      RecentAgentsLength(m, agents[..|agents| - 1], period, now);
    }
  }

  /**
    At the boundary `createdAt + period == now` a container is neither swept as
    unregistered nor reported as inside its grace window: both comparisons are strict.
   */
  lemma GraceBoundary(m: Registry, created: map<string, int>, known: seq<Agent>, period: int, now: int, id: string)
    requires EngineTracks(m, created, known)
    requires id in m && id in created
    requires created[id] + period == now && m[id].createdAt == created[id]
    ensures id !in Unregistered(m, created, known, period, now)
    ensures forall a :: a in RecentAgents(m, known, period, now) ==> a.elasticAgentId != id
  {
    forall a | a in RecentAgents(m, known, period, now)
      ensures a.elasticAgentId != id
    {
      RecentAgentsMembership(m, known, period, now, a);
    }
  }

  /**
    The two sweeps never act on the same container: no container the timeout sweep
    selects belongs to an agent the grace-window filter returns for the known agents.
   */
  lemma SweepsDisjoint(m: Registry, created: map<string, int>, known: seq<Agent>, period: int, now: int)
    requires EngineTracks(m, created, known)
    ensures forall a :: a in RecentAgents(m, known, period, now) ==>
                          a.elasticAgentId !in Unregistered(m, created, known, period, now)
  {
    forall a | a in RecentAgents(m, known, period, now)
      ensures a.elasticAgentId !in Unregistered(m, created, known, period, now)
    {
      RecentAgentsMembership(m, known, period, now, a);
    }
  }

  /**
    Independently of which agents each sweep is given, a container whose registered
    creation time is the engine's cannot be both selected by the timeout sweep and kept by
    the grace-window filter: `createdAt + period` cannot be both before and after `now`.
   */
  lemma SweepsDisjointInTime(m: Registry, created: map<string, int>, known: seq<Agent>, agents: seq<Agent>,
                             period: int, now: int, id: string)
    requires EngineTracks(m, created, known)
    requires id in m && id in created && m[id].createdAt == created[id]
    ensures id in Unregistered(m, created, known, period, now) ==>
              forall a :: a in RecentAgents(m, agents, period, now) ==> a.elasticAgentId != id
  {
  }

  /**
    Once the selected containers are removed from the registry and the engine, a second
    sweep at the same instant selects nothing.
   */
  lemma SweepIdempotent(m: Registry, created: map<string, int>, known: seq<Agent>, period: int, now: int)
    requires EngineTracks(m, created, known)
    ensures var swept := Unregistered(m, created, known, period, now).Keys;
            && EngineTracks(m - swept, created - swept, known)
            && Unregistered(m - swept, created - swept, known, period, now) == map[]
  {
  }

  /** The grace-period scenario: with a 10 minute period, a container started 15 minutes ago is swept, one started 5 minutes ago is kept. */
  method SweepScenario()
  {
    var engine := new DockerClient.Engine(map["c1" := 0, "c2" := 10], {"c1", "c2"});
    var registry := new DockerContainers();
    registry.RefreshAll(engine);
    assert registry.containers == map["c1" := DockerContainer("c1", 0), "c2" := DockerContainer("c2", 10)];
    registry.TerminateUnregisteredInstances(engine, [], 10, 15);
    assert !registry.HasContainer("c1") && registry.HasContainer("c2");
    assert "c1" !in engine.created;
    var recent := registry.InstancesCreatedAfterTimeout([Agent("c1"), Agent("c2")], 10, 15);
    assert recent == [Agent("c2")];
    registry.RefreshAll(engine);
    assert !registry.HasContainer("c1");
  }

}
