/**
 The orchestration platform's API server as the canceller's client sees it:
 resources stored by (kind, name, namespace), typed reads, and whole-resource
 updates. Every client call is recorded as a `Call` so that a run's remote
 traffic can be stated.
 */
module Cluster {
  import opened Wrappers

  /** The two resource kinds the canceller reads or writes. */
  datatype Kind = DeploymentConfigKind | ReplicationControllerKind

  /** A resource's identity on the server. */
  datatype Ref = Ref(kind: Kind, name: string, namespace: string)

  type Annotations = map<string, string>

  /** A Java `int`. */
  type Int32 = x: int | -0x8000_0000 <= x <= 0x7fff_ffff

  /** A deployment config carries the number of its latest rollout; a
      replication controller (one rollout) carries its annotations. */
  datatype Resource =
    | DeploymentConfig(latestVersion: Int32)
    | ReplicationController(annotations: Annotations)

  function KindOf(r: Resource): Kind {
    match r
    case DeploymentConfig(_) => DeploymentConfigKind
    case ReplicationController(_) => ReplicationControllerKind
  }

  /** Every resource the server holds, by identity. */
  type State = map<Ref, Resource>

  /** `client.get(kind, name, namespace)`: the resource of that kind stored under
      that identity, or null when there is none. */
  function Get(state: State, ref: Ref): (r: Option<Resource>)
    ensures r.Some? ==> KindOf(r.value) == ref.kind
    ensures r.Some? ==> ref in state && r.value == state[ref]
    ensures ref in state && KindOf(state[ref]) == ref.kind ==> r.Some?
  {
    if ref in state && KindOf(state[ref]) == ref.kind then Some(state[ref]) else None
  }

  /** One remote call made through the client. */
  datatype Call =
    | GetCall(ref: Ref)
    | UpdateCall(ref: Ref, annotations: Annotations)

  predicate NoUpdates(calls: seq<Call>) {
    forall i :: 0 <= i < |calls| ==> !calls[i].UpdateCall?
  }

}
