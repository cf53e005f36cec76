// Rows of the plugin table, as far as starting plugins looks at them
// (kernel/internal/models/plugin.go).
module Plugins {
  import opened Graph

  type Capability = string

  datatype Plugin = Plugin(
    id: Id,
    image: string,
    containerImages: seq<string>,   // images of the explicit container specs
    enabled: bool,
    capabilities: seq<Capability>,
    dependencies: seq<Capability>)
  {
    predicate IsMetadataOnly() {
      image == "" && forall c :: c in containerImages ==> c == ""
    }
  }

  ghost function IdSet(ps: seq<Plugin>): set<Id> {
    set p | p in ps :: p.id
  }

  // The id column is the primary key.
  ghost predicate DistinctIds(ps: seq<Plugin>) {
    forall i, j :: 0 <= i < j < |ps| ==> ps[i].id != ps[j].id
  }
}
