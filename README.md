# Docker elastic agents: the container registry

This project models `DockerContainers`, the registry that a GoCD elastic-agent plugin keeps
of the Docker containers it has launched as build agents. The registry is an in-memory map
from container name to a container record (name and creation time), together with a one-shot
`refreshed` flag. It is reconciled in two directions:

- Against the Docker engine:
  - `create` launches and registers a container.
  - `refresh` registers one container that is missing.
  - `refreshAll` hydrates the registry, once per process, from every container carrying the
    plugin's label.
  - `terminate` removes a container from both sides.
- Against the orchestrator's agents:
  - `terminateUnregisteredInstances` terminates containers that no agent ever came from,
    once `createdAt + period` is strictly before now.
  - `instancesCreatedAfterTimeout` returns the agents whose container is still strictly
    inside that window.

Files:

- `docker_containers.dfy`, module `Docker`:
  - the records `DockerContainer` and `Agent`;
  - the specification functions `Unregistered`, `Hydration`, `RecentAgents`, `Expired`
    and `WithinGrace`;
  - their auxiliary predicates and functions: `ContainsAgentWithId` (the agents' id
    lookup), `KeyedByName` (the registry invariant), `Candidates` (the names the sweep
    inspects), `EngineTracks` (the engine can answer for every candidate) and `IsRecent`
    (the filter's test for one agent);
  - the class `DockerContainers`;
  - the lemmas about the specification. `HydrationStep` and `UnregisteredStep` are helper
    lemmas for the loop proofs and have no row below.
- `docker_client.dfy`, module `DockerClient`: the engine as the registry sees it. Its
  class `Engine` holds:
  - a map from container name to creation time;
  - the set of names carrying the plugin label;
  - a count of the read requests (inspect, list) it has served.

  It is owned by the model and passed to every operation. This stands for the Docker client
  that the Java builds from the plugin settings.
- `wrappers.dfy`, module `Wrappers`: `Option`, which stands for Java's `null` results.

Time is an integer. The current instant `now` and the grace period `period` are parameters,
in place of the injected `Clock` and the settings' auto-register `Period`. The orchestrator's
agents are a `seq<Agent>` in place of `Agents`.

The method is named `instancesCreatedAfterTimeout`, but it keeps the agents whose container
is still inside its grace window (`createdAt + period` strictly after now). The model keeps
that literal comparison.

## Model

| member | source | states |
|---|---|---|
| `Docker.DockerContainers.constructor` | src/main/java/cd/go/contrib/elasticagents/docker/DockerContainers.java:34-35 | A new registry is empty and not yet refreshed. |
| `Docker.DockerContainers.Create` | src/main/java/cd/go/contrib/elasticagents/docker/DockerContainers.java:39-43 | The engine launches and labels a container, with its creation time. The returned record is then found under its name. The registry is the old map with that one name overwritten. The flag and every other entry are unchanged. |
| `Docker.DockerContainers.Refresh` | src/main/java/cd/go/contrib/elasticagents/docker/DockerContainers.java:46-50 | If the id is registered, the registry is unchanged and the engine gets no request. Otherwise the engine is inspected exactly once. Exactly the engine's record for the id is inserted under that id. |
| `Docker.DockerContainers.Terminate` | src/main/java/cd/go/contrib/elasticagents/docker/DockerContainers.java:53-62 | Afterwards the id is not a key, and every other entry is unchanged. The engine removes the container only if the id was registered. For an unknown id the engine is untouched and the map operation is a no-op. |
| `Docker.DockerContainers.TerminateUnregisteredInstances` | src/main/java/cd/go/contrib/elasticagents/docker/DockerContainers.java:65-77 | The registry, the engine's containers and the engine's labelled set all lose exactly the names `Unregistered` selects. Every other entry is kept, including every name a known agent carries. The engine is inspected exactly once per registered name that no known agent carries. |
| `Docker.DockerContainers.TerminateAll` | src/main/java/cd/go/contrib/elasticagents/docker/DockerContainers.java:74-76 | The terminate loop: given records filed under their own names, all of them registered, it removes exactly their names from the registry, from the engine's containers and from its labelled set. It makes no engine queries. |
| `Docker.DockerContainers.InstancesCreatedAfterTimeout` | src/main/java/cd/go/contrib/elasticagents/docker/DockerContainers.java:80-93 | The result is `RecentAgents` of the registry: the input agents, in order, whose container is registered with `createdAt + period > now`. Agents without a container are skipped. The registry is only read. |
| `Docker.DockerContainers.RefreshAll` | src/main/java/cd/go/contrib/elasticagents/docker/DockerContainers.java:96-105 | On the first call, a record for every labelled engine container overwrites the map: a list request plus one inspect per container. The flag is then set. On any later call the registry, the flag and the engine are unchanged. |
| `Docker.DockerContainers.Register` | src/main/java/cd/go/contrib/elasticagents/docker/DockerContainers.java:107-109 | The record is put under its own name, overwriting any previous record there, and every record stays filed under its own name. |
| `Docker.DockerContainers.UnregisteredAfterTimeout` | src/main/java/cd/go/contrib/elasticagents/docker/DockerContainers.java:115-132 | Returns a fresh registry holding exactly the registered, agent-less containers whose engine-reported creation time plus the period is strictly before now. Each is recorded with the engine's time. The engine is inspected once per candidate. |
| `Docker.DockerContainers.HasContainer` | src/main/java/cd/go/contrib/elasticagents/docker/DockerContainers.java:134-136 | Holds exactly when `Find` returns a record. |
| `Docker.DockerContainers.Find` | src/main/java/cd/go/contrib/elasticagents/docker/DockerContainers.java:138-141 | Returns a record exactly when the id is a key: the map's record, whose name is the id. Otherwise it returns `None`. |
| `Docker.RecentAgentsMembership` | src/main/java/cd/go/contrib/elasticagents/docker/DockerContainers.java:82-91 | An agent is in the grace-window result exactly when it is an input agent with a registered container still inside its window. Both directions are proved. |
| `Docker.RecentAgentsAppend` | src/main/java/cd/go/contrib/elasticagents/docker/DockerContainers.java:82-91 | The filter preserves input order: filtering `xs + ys` gives filtered `xs` followed by filtered `ys`. |
| `Docker.RecentAgentsLength` | src/main/java/cd/go/contrib/elasticagents/docker/DockerContainers.java:80-93 | The result is never longer than the input. |
| `Docker.GraceBoundary` | src/main/java/cd/go/contrib/elasticagents/docker/DockerContainers.java:127 | Take a container with `createdAt + period == now`. The sweep's strict `isBefore` does not select it. The filter's strict `isAfter` on line 88 does not return its agent. |
| `Docker.SweepsDisjoint` | src/main/java/cd/go/contrib/elasticagents/docker/DockerContainers.java:65-93 | No container the timeout sweep selects belongs to an agent that the grace-window filter returns for the same known agents. This follows from the agent check at line 120, not from time. |
| `Docker.SweepsDisjointInTime` | src/main/java/cd/go/contrib/elasticagents/docker/DockerContainers.java:80-132 | Whatever agents each sweep is given, a container whose registered creation time is the engine's is never both selected by the timeout sweep (strict `isBefore`) and kept by the grace-window filter (strict `isAfter`). |
| `Docker.SweepIdempotent` | src/main/java/cd/go/contrib/elasticagents/docker/DockerContainers.java:65-77 | After the selected names are removed from registry and engine, a second sweep at the same instant selects nothing. |

`Docker.SweepScenario` is a client of the class. With a 10-minute period, a container
started 15 minutes ago is swept and one started 5 minutes ago is kept. Only the newer
container's agent is inside the grace window, and a second `refreshAll` changes nothing.

## Left out

- Docker client construction (`docker(settings)`, `DockerClientFactory`) and the engine
  calls (`listContainers`, `inspectContainer`) are network I/O. The class
  `DockerClient.Engine` stands in for them.
- The bodies of `DockerContainer.create`, `find`, `terminate` and `fromContainerInfo` are
  not part of this model. They become engine launch, inspect and remove calls, with the
  record built from the name and the engine's creation time.
- `CreateAgentRequest` and `PluginSettings` are not modelled. `create` receives the
  engine-assigned name and the creation instant as parameters.
- `Create`: requires the name to be fresh in the engine, because the engine assigns unique
  names. The engine rejecting a launch, and the exception that follows, are not modelled.
- `Refresh`: requires an unregistered id to exist in the engine. What `DockerContainer.find`
  does for an absent container is not part of this model.
- `TerminateUnregisteredInstances`: requires every inspected name to exist in the engine.
  For a missing one the Java inspect throws, and the sweep aborts before anything is
  terminated. That exception path is not modelled.
- `UnregisteredAfterTimeout`: has the same engine precondition as
  `TerminateUnregisteredInstances`.
- `TerminateUnregisteredInstances`, `UnregisteredAfterTimeout` and
  `InstancesCreatedAfterTimeout`: use a single `now` for the whole call. The Java reads
  `clock.now()` once per container or agent, so a clock that moves during one call is not
  modelled.
- Exceptions from engine calls in general are not modelled. Each operation is modelled as
  succeeding.
- Per-identity failure isolation during sweeps is not modelled. The code terminates
  sequentially and an exception ends the loop, and the model follows the code.
- Thread safety of the `ConcurrentHashMap` and the race on the non-atomic `refreshed` flag
  are concurrency. The operations are modelled sequentially.
- Joda `DateTime`/`Period` arithmetic is replaced by integer addition and strict integer
  comparison.
- Logging (the warnings for an unknown id and for the set of names being terminated) is
  not modelled.
- `Agent` carries only its elastic agent id. The other fields of the orchestrator's agent
  record are not part of this model.
