/** The operator's deletion code: it updates the tracked list in place while it walks the waves. */
module DeletionHandlers {
  import opened Kube
  import opened Manifests
  import opened SyncWaves
  import opened Deletion

  class ApiServer {
    var objects: map<Identity, Object>
    ghost var events: seq<Event>

    constructor (objects: map<Identity, Object>)
      ensures this.objects == objects && events == []
    {
      this.objects := objects;
      events := [];
    }

    ghost function World(): World
      reads this
    {
      Kube.World(objects, events)
    }

    method Get(id: Identity, faults: Faults) returns (failed: bool, found: Option<Object>)
      modifies this`events
      ensures failed <==> id in faults.get
      ensures !failed ==> found == if id in objects then Some(objects[id]) else None
      ensures events == old(events) + if !failed && id !in objects then [SawAbsent(id)] else []
    {
      failed := id in faults.get;
      found := if !failed && id in objects then Some(objects[id]) else None;
      if !failed && id !in objects {
        events := events + [SawAbsent(id)];
      }
    }

    method Delete(id: Identity, now: int, faults: Faults) returns (failed: bool)
      requires id in objects
      modifies this
      ensures failed <==> id in faults.delete
      ensures objects == if failed then old(objects) else Deleted(old(objects), id, now)
      ensures events == old(events) + [SentDelete(id, Owner(old(objects)[id]))]
    {
      failed := id in faults.delete;
      events := events + [SentDelete(id, Owner(objects[id]))];
      if !failed {
        objects := Deleted(objects, id, now);
      }
    }
  }

  class ClusterInstance {
    var manifestsRendered: seq<Manifest>

    constructor (ms: seq<Manifest>)
      ensures manifestsRendered == ms
    {
      manifestsRendered := ms;
    }
  }

  class DeletionHandler {
    const api: ApiServer

    constructor (api: ApiServer)
      ensures this.api == api
    {
      this.api := api;
    }

    method DeleteObject(cfg: Setting, id: Identity) returns (deleted: bool, err: Option<Outcome>)
      modifies api
      ensures var (w, outcome) := Deletion.DeleteObject(cfg, old(api.World()), id);
              && api.World() == w
              && deleted == outcome.Gone?
              && err == if outcome.Foreign? || outcome.Failure? then Some(outcome) else None
    {
      var failed, found := api.Get(id, cfg.faults);
      if failed {
        return false, Some(Failure(OtherError));
      }
      if found.None? {
        return true, None;
      }
      var o := found.value;
      if Owner(o) != cfg.owner {
        api.events := api.events + [SawForeign(id)];
        return false, Some(Foreign);
      }
      if o.deletedAt.None? {
        failed := api.Delete(id, cfg.now, cfg.faults);
        if failed {
          return false, Some(Failure(OtherError));
        }
      } else if Expired(cfg, o.deletedAt.value) {
        return false, Some(Failure(TimeoutError));
      }
      return false, None;
    }

    /** Everything tracked, as objects rebuilt from the list. */
    method DeleteRenderedObjects(ci: ClusterInstance, cfg: Setting, saved: bool)
      returns (completed: bool, errors: seq<ErrorKind>, ghost plan: Plan)
      modifies ci, api
      ensures DeletionPlan(plan, ObjectsFor(old(ci.manifestsRendered)))
      ensures var r := Deletion.DeleteObjects(cfg, old(api.World()), old(ci.manifestsRendered), plan);
              && api.World() == r.world
              && ci.manifestsRendered == r.manifests
              && completed == r.completed
              && errors == Reported(r, old(ci.manifestsRendered), saved)
    {
      if |ci.manifestsRendered| == 0 {
        return true, [], [];
      }
      completed, errors, plan := DeleteObjects(ci, cfg, ObjectsFor(ci.manifestsRendered), saved);
    }

    /** One call; `plan` records the order in which the waves and their objects were taken. */
    method DeleteObjects(ci: ClusterInstance, cfg: Setting, objects: seq<RenderedObject>, saved: bool)
      returns (completed: bool, errors: seq<ErrorKind>, ghost plan: Plan)
      modifies ci, api
      ensures DeletionPlan(plan, objects)
      ensures var r := Deletion.DeleteObjects(cfg, old(api.World()), old(ci.manifestsRendered), plan);
              && api.World() == r.world
              && ci.manifestsRendered == r.manifests
              && completed == r.completed
              && errors == Reported(r, old(ci.manifestsRendered), saved)
    {
      var manifestsRendered := ci.manifestsRendered;
      var manifestsDeleted: seq<Manifest> := [];
      errors, completed := [], false;

      var waves := new SyncWaveMap();
      var _ := waves.AddObjects(objects);
      var groups := waves.Groups(false);
      plan := groups;
      assert waves.added == objects;

      ghost var start := Start(api.World(), manifestsRendered);
      ghost var p := start;
      var n := 0;
      var stopped := false;
      while n < |groups| && !stopped
        invariant 0 <= n <= |groups|
        invariant p == Pass(api.World(), manifestsRendered, manifestsDeleted, errors, p.groupDone, p.aborted)
        invariant ci.manifestsRendered == old(ci.manifestsRendered)
        invariant !stopped ==> !p.aborted
        invariant if stopped then RunWaves(cfg, start, groups) == (p, false)
                  else RunWaves(cfg, start, groups) == RunWaves(cfg, p, groups[n..])
      {
        var groupDone, aborted := true, false;
        var os := groups[n].objects;
        ghost var before := p.(groupDone := true);
        p := before;
        var k := 0;
        while k < |os| && !aborted
          invariant 0 <= k <= |os|
          invariant p == Pass(api.World(), manifestsRendered, manifestsDeleted, errors, groupDone, aborted)
          invariant ci.manifestsRendered == old(ci.manifestsRendered)
          invariant RunObjects(cfg, before, os) == RunObjects(cfg, p, os[k..])
        {
          var o := os[k];
          p := StepObject(cfg, p, o);
          k := k + 1;
          if o.id in cfg.exclude {
            continue;
          }
          var index, found := FindManifest(manifestsRendered, o.id);
          if !found {
            continue;
          }
          var m := manifestsRendered[index];
          var deleted, err := DeleteObject(cfg, o.id);
          if deleted || err == Some(Foreign) {
            manifestsDeleted := manifestsDeleted + [m];
            continue;
          }
          if err.Some? {
            var kind := err.value.kind;
            errors := errors + [kind];
            manifestsRendered := manifestsRendered[index := UpdateStatus(m, FailureStatus(kind), ErrorText(kind), cfg.now)];
            aborted := kind.TimeoutError?;
            continue;
          }
          if m.status != DeletionInProgress {
            manifestsRendered := manifestsRendered[index := UpdateStatus(m, DeletionInProgress, "", cfg.now)];
          }
          groupDone := false;
        }
        stopped := aborted || errors != [] || !groupDone;
        n := n + 1;
      }
      completed := !stopped;
      manifestsRendered := FilterOutDeleted(manifestsRendered, manifestsDeleted);
      if ci.manifestsRendered != manifestsRendered {
        ci.manifestsRendered := manifestsRendered;
        if !saved {
          errors := errors + [OtherError];
        }
      }
    }
  }

  lemma FilterStep(ms: seq<Manifest>, removed: seq<Manifest>, i: nat, r: seq<Manifest>)
    requires i < |ms|
    ensures r + Filter(ms[i..], removed) ==
            (if Tracked(removed, ms[i].id) then r else r + [ms[i]]) + Filter(ms[i + 1..], removed)
  {
    assert ms[i..][0] == ms[i] && ms[i..][1..] == ms[i + 1..];
  }

  method FilterOutDeleted(ms: seq<Manifest>, removed: seq<Manifest>) returns (r: seq<Manifest>)
    ensures r == Filter(ms, removed)
  {
    r := [];
    for i := 0 to |ms|
      invariant r + Filter(ms[i..], removed) == Filter(ms, removed)
    {
      FilterStep(ms, removed, i, r);
      var _, found := FindManifest(removed, ms[i].id);
      if !found {
        r := r + [ms[i]];
      }
    }
  }
}
