/**
 The tracked manifests of a ClusterInstance: the references kept in `Status.ManifestsRendered`,
 their lookup by identity and the rewriting of one entry's status.
 */
module Manifests {
  import opened Kube

  datatype Status =
    | Rendered
    | RenderFailed
    | Validated
    | Suppressed
    | DeletionInProgress
    | DeletionFailed
    | DeletionTimedOut
    | Unset

  /** A reference to a manifest. `message` stands for the text of the last error, "" for none. */
  datatype Manifest = Manifest(
    id: Identity,
    syncWave: Int64,
    status: Status,
    message: string,
    lastApplied: int)

  function UpdateStatus(m: Manifest, status: Status, message: string, now: int): Manifest {
    if m.status != status || m.message != message
    then m.(status := status, message := message, lastApplied := now)
    else m
  }

  /** The first entry with the given identity, or -1. */
  function IndexOf(ms: seq<Manifest>, id: Identity): (index: int)
    ensures -1 <= index < |ms|
    ensures index >= 0 ==> ms[index].id == id && forall j | 0 <= j < index :: ms[j].id != id
    ensures index < 0 ==> forall m | m in ms :: m.id != id
  {
    if ms == [] then -1
    else if ms[0].id == id then 0
    else
      var rest := IndexOf(ms[1..], id);
      if rest < 0 then -1 else rest + 1
  }

  /** The scan of IndexOfManifestByIdentity; `found` is its nil error. */
  method FindManifest(ms: seq<Manifest>, id: Identity) returns (index: int, found: bool)
    ensures index == IndexOf(ms, id)
    ensures found <==> exists m | m in ms :: m.id == id
  {
    for i := 0 to |ms|
      invariant forall j | 0 <= j < i :: ms[j].id != id
    {
      if ms[i].id == id {
        assert ms[i] in ms;
        return i, true;
      }
    }
    return -1, false;
  }

  predicate Tracked(ms: seq<Manifest>, id: Identity) {
    IndexOf(ms, id) >= 0
  }

  predicate DistinctIds(ms: seq<Manifest>) {
    forall i, j | 0 <= i < j < |ms| :: ms[i].id != ms[j].id
  }

  lemma TrackedMeans(ms: seq<Manifest>, id: Identity)
    ensures Tracked(ms, id) <==> exists m | m in ms :: m.id == id
  {
  }

  /** Two lists that track the same identities on the same waves, entry by entry. */
  predicate SameEntries(a: seq<Manifest>, b: seq<Manifest>) {
    |a| == |b| && forall i | 0 <= i < |a| :: a[i].id == b[i].id && a[i].syncWave == b[i].syncWave
  }

  lemma SameEntriesSameIndex(a: seq<Manifest>, b: seq<Manifest>, id: Identity)
    requires SameEntries(a, b)
    ensures IndexOf(a, id) == IndexOf(b, id)
  {
    var i, j := IndexOf(a, id), IndexOf(b, id);
    assert i >= 0 ==> b[i] in b;
    assert j >= 0 ==> a[j] in a;
  }

  /** The time moves exactly when the status or the message changes; identity and wave never do. */
  lemma StatusUpdated(m: Manifest, status: Status, message: string, now: int)
    ensures var u := UpdateStatus(m, status, message, now);
            && u.id == m.id && u.syncWave == m.syncWave && u.status == status && u.message == message
            && u.lastApplied == if m.status == status && m.message == message then m.lastApplied else now
  {
  }
}
