/**
 The Kubernetes vocabulary of the model: object identities, live objects and the part of the API
 server's state the operator works on, together with a record of what the operator saw and sent.
 */
module Kube {

  datatype Option<+T> = None | Some(value: T)

  /** Go's `int` on the platforms the operator is built for. */
  type Int64 = n: int | -0x8000_0000_0000_0000 <= n < 0x8000_0000_0000_0000

  /** The fields by which manifests and rendered objects are matched. */
  datatype Identity = Identity(apiVersion: string, kind: string, namespace: string, name: string)

  /** The label and annotation keys the operator gives a meaning to; all others are `Other`. */
  datatype Key =
    | OwnedBy
    | Preserve
    | PreserveInternal
    | PreservedData
    | PreservedInternalData
    | ClusterIdentityData
    | RestoredAt
    | ReinstallGeneration
    | ResourceType
    | Other(name: string)

  type Labels = map<Key, string>

  /**
   What an object holds besides its metadata. `extra` stands for everything outside `data` (type,
   immutability, binary data). A `Snapshot` is the serialized copy of another object.
   */
  datatype Body =
    | Plain(data: map<string, string>, extra: string)
    | Snapshot(origin: Identity, labels: Labels, annotations: Labels, finalizers: bool, saved: Body)

  /** A live object. `deletedAt` is its deletion timestamp; `finalizers` says whether any is left. */
  datatype Object = Object(
    labels: Labels,
    annotations: Labels,
    body: Body,
    finalizers: bool,
    deletedAt: Option<int>)

  /** What the operator found out about, or asked of, the API server. */
  datatype Event =
    | SawAbsent(id: Identity)
    | SawForeign(id: Identity)
    | SentDelete(id: Identity, owner: string)

  datatype World = World(objects: map<Identity, Object>, events: seq<Event>)

  /** A Go map read: the zero value when the key is missing. */
  function Lookup(m: Labels, key: Key): string {
    if key in m then m[key] else ""
  }

  function Owner(o: Object): string {
    Lookup(o.labels, OwnedBy)
  }

  predicate OwnedLive(w: World, owner: string, id: Identity) {
    id in w.objects && Owner(w.objects[id]) == owner
  }

  predicate Marked(w: World, id: Identity) {
    id in w.objects && w.objects[id].deletedAt.Some?
  }

  /** Background deletion: an object without finalizers goes at once, others are marked. */
  function Deleted(objects: map<Identity, Object>, id: Identity, now: int): map<Identity, Object>
    requires id in objects
  {
    if objects[id].finalizers
    then objects[id := objects[id].(deletedAt := Some(now))]
    else objects - {id}
  }

  function Log(w: World, e: Event): World {
    w.(events := w.events + [e])
  }

  /** The environment finishes every deletion that has been requested. */
  function Settle(w: World): World {
    w.(objects := map id | id in w.objects && w.objects[id].deletedAt.None? :: w.objects[id])
  }

  /** The key a loop over a Go map takes next. */
  method AnyOf<T(==)>(s: set<T>) returns (x: T)
    requires s != {}
    ensures x in s
  {
    x :| x in s;
  }
}
