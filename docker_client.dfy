/**
  The container engine the registry talks to, reduced to what the registry can observe:
  which containers exist and when each was created, which of them carry the plugin's
  ownership label, and how many read requests (inspect, list) it has been asked.
 */
module DockerClient {

  class Engine {
    /** Every container the engine holds, by name, with its creation time. */
    var created: map<string, int>
    /** The names of the containers labelled as created by this plugin. */
    var labelled: set<string>
    /** The number of inspect and list requests served so far. */
    var queries: nat

    ghost predicate Valid()
      reads this
    {
      labelled <= created.Keys
    }

    constructor (created: map<string, int>, labelled: set<string>)
      requires labelled <= created.Keys
      ensures Valid()
      ensures this.created == created && this.labelled == labelled && queries == 0
    {
      this.created := created;
      this.labelled := labelled;
      queries := 0;
    }

    /** Launches a labelled container under the fresh name `name`, created at `now`. */
    method Launch(name: string, now: int) returns (createdAt: int)
      requires Valid()
      requires name !in created
      modifies this
      ensures Valid()
      ensures createdAt == now
      ensures created == old(created)[name := now]
      ensures labelled == old(labelled) + {name}
      ensures queries == old(queries)
    {
      created := created[name := now];
      labelled := labelled + {name};
      createdAt := now;
    }

    /** Inspects a container the engine holds and reports its creation time. */
    method Inspect(name: string) returns (createdAt: int)
      requires name in created
      modifies this`queries
      ensures createdAt == created[name]
      ensures queries == old(queries) + 1
    {
      queries := queries + 1;
      createdAt := created[name];
    }

    /** Lists, in some order and once each, the containers carrying the plugin's label. */
    method ListContainers() returns (names: seq<string>)
      modifies this`queries
      ensures forall n :: n in names <==> n in labelled
      ensures |names| == |labelled|
      ensures queries == old(queries) + 1
    {
      queries := queries + 1;
      names := [];
      var rest := labelled;
      while rest != {}
        invariant rest <= labelled
        invariant forall n :: n in names <==> n in labelled && n !in rest
        invariant |names| + |rest| == |labelled|
        decreases rest
      {
        var n :| n in rest;
        names := names + [n];
        rest := rest - {n};
      }
    }

    /** Stops and removes a container; removing one that is already gone succeeds. */
    method Remove(name: string)
      requires Valid()
      modifies this
      ensures Valid()
      ensures created == old(created) - {name}
      ensures labelled == old(labelled) - {name}
      ensures queries == old(queries)
    {
      created := created - {name};
      labelled := labelled - {name};
    }
  }

}
