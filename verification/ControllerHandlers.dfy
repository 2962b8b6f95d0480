/** The operator's reconcile code: it rewrites the tracked list in memory and patches it step by step. */
module ControllerHandlers {
  import opened Kube
  import opened Manifests
  import opened SyncWaves
  import opened DeletionHandlers
  import C = Controller
  import D = Deletion

  method ExecuteRenderedManifests(tracked: seq<Manifest>, objects: seq<RenderedObject>, fails: set<Identity>, dryRun: bool, status: Status, now: int)
    returns (manifestsRendered: seq<Manifest>, ok: bool, ghost calls: seq<C.Call>)
    ensures manifestsRendered == C.Execute(tracked, objects, fails, status, now)
    ensures ok <==> C.AllSucceed(objects, fails)
    ensures calls == C.Calls(objects, fails, dryRun)
  {
    ok := true;
    manifestsRendered := tracked;
    calls := [];
    ghost var all := C.Calls(objects, fails, dryRun);
    for n := 0 to |objects|
      invariant C.Execute(manifestsRendered, objects[n..], fails, status, now) == C.Execute(tracked, objects, fails, status, now)
      invariant ok <==> forall i | 0 <= i < n :: objects[i].id !in fails
      invariant calls == all[..n]
    {
      assert objects[n..][1..] == objects[n + 1..];
      calls := calls + [all[n]];
      var failed;
      manifestsRendered, failed := ApplyOne(manifestsRendered, objects[n], fails, status, now);
      if failed {
        ok := false;
      }
    }
  }

  method ApplyOne(ms: seq<Manifest>, o: RenderedObject, fails: set<Identity>, status: Status, now: int)
    returns (r: seq<Manifest>, failed: bool)
    ensures r == C.AfterCall(ms, o, fails, status, now)
    ensures failed <==> o.id in fails
  {
    failed := o.id in fails;
    var ref := C.Sent(o, RenderFailed, "failed", now);
    if !failed {
      ref := C.Sent(o, status, "", now);
    }
    r := UpsertManifest(ms, ref, now);
  }

  method UpsertManifest(ms: seq<Manifest>, ref: Manifest, now: int) returns (r: seq<Manifest>)
    ensures r == C.Upsert(ms, ref, now)
  {
    var index, found := FindManifest(ms, ref.id);
    if found {
      r := ms[index := UpdateStatus(ms[index], ref.status, ref.message, now)];
    } else {
      r := ms + [ref];
    }
  }

  method SuppressManifests(tracked: seq<Manifest>, objects: seq<RenderedObject>, now: int) returns (r: seq<Manifest>)
    ensures r == C.Suppress(tracked, objects, now)
  {
    r := tracked;
    for n := 0 to |objects|
      invariant C.Suppress(r, objects[n..], now) == C.Suppress(tracked, objects, now)
    {
      assert objects[n..][1..] == objects[n + 1..];
      r := UpsertManifest(r, C.Sent(objects[n], Suppressed, "", 0), now);
    }
  }

  class Reconciler {
    const deletion: DeletionHandler
    const ci: ClusterInstance
    const restore: Option<string>
    var live: C.Version
    var stored: seq<Manifest>
    var observed: int
    var lastSpec: Option<string>
    var handled: Option<string>
    var paused: bool
    ghost var applied: Option<C.Version>
    ghost var calls: seq<C.Call>

    constructor (deletion: DeletionHandler, ci: ClusterInstance, s: C.Cluster)
      ensures this.deletion == deletion && this.ci == ci
      ensures ci.manifestsRendered == s.tracked && deletion.api.World() == s.world ==> Stored() == s
    {
      this.deletion, this.ci := deletion, ci;
      live, restore := s.live, s.restore;
      stored, observed, lastSpec, handled, paused := s.tracked, s.observed, s.lastSpec, s.handled, s.paused;
      applied, calls := s.applied, s.calls;
    }

    /** What the API server has of the instance, and the rest of the store. */
    ghost function Stored(): C.Cluster
      reads this, deletion.api
    {
      C.Cluster(live, observed, lastSpec, applied, stored, restore, handled, paused, deletion.api.World(), calls)
    }

    /** The list in memory is the stored one. */
    ghost predicate Fresh()
      reads this, ci
    {
      ci.manifestsRendered == stored
    }

    method PatchList(ok: bool) returns (failed: bool)
      modifies this`stored
      ensures failed == !ok
      ensures stored == if ok then ci.manifestsRendered else old(stored)
    {
      if ok {
        stored := ci.manifestsRendered;
      }
      return !ok;
    }

    /** `plan` is the order in which the deletion took the objects. */
    method PruneManifests(inp: C.Inputs) returns (ok: bool, ghost plan: Plan)
      requires Fresh()
      modifies this, ci, deletion.api
      ensures (Stored(), ok) == C.PruneStep(old(Stored()), inp, plan)
      ensures ok ==> Fresh()
    {
      plan := [];
      if |inp.prune| == 0 {
        return true, plan;
      }
      var completed, errors;
      completed, errors, plan := deletion.DeleteObjects(ci, inp.deletion, inp.prune, inp.patches.prune);
      if inp.patches.prune {
        stored := ci.manifestsRendered;
      }
      if errors != [] {
        if D.TimeoutError in errors && inp.patches.pause {
          paused := true;
        }
        return false, plan;
      }
      return completed, plan;
    }

    method UpdateSuppressedManifestsStatus(inp: C.Inputs) returns (failed: bool)
      requires Fresh()
      modifies this`stored, ci
      ensures (Stored(), !failed) == C.SuppressStep(old(Stored()), inp)
      ensures !failed ==> Fresh()
    {
      var ms := SuppressManifests(ci.manifestsRendered, inp.suppress, inp.now);
      failed := false;
      if ms != ci.manifestsRendered {
        ci.manifestsRendered := ms;
        failed := PatchList(inp.patches.suppress);
      }
    }

    method ValidateRenderedManifests(inp: C.Inputs) returns (rendered: bool)
      requires Fresh()
      modifies this`stored, this`calls, ci
      ensures (Stored(), rendered) == C.DryRunStep(old(Stored()), inp)
      ensures rendered ==> Fresh()
    {
      var ms, ok;
      ghost var sent;
      ms, ok, sent := ExecuteRenderedManifests(ci.manifestsRendered, inp.render, inp.dryRunFails, true, Validated, inp.now);
      calls := calls + sent;
      ci.manifestsRendered := ms;
      var failed := PatchList(inp.patches.validate);
      rendered := ok && !failed;
    }

    method ApplyRenderedManifests(inp: C.Inputs) returns (rendered: bool)
      requires Fresh()
      modifies this`stored, this`calls, this`applied, ci
      ensures (Stored(), rendered) == C.ApplyStep(old(Stored()), inp)
      ensures rendered ==> Fresh()
    {
      var ms, ok;
      ghost var sent;
      ms, ok, sent := ExecuteRenderedManifests(ci.manifestsRendered, inp.render, inp.applyFails, false, Rendered, inp.now);
      calls := calls + sent;
      applied := if ok then Some(live) else None;
      ci.manifestsRendered := ms;
      var failed := PatchList(inp.patches.apply);
      rendered := ok && !failed;
    }

    method HandleRenderTemplates(inp: C.Inputs) returns (ok: bool, ghost plan: Plan)
      requires Fresh()
      modifies this, ci, deletion.api
      ensures (Stored(), ok) == C.RenderStep(old(Stored()), inp, plan)
    {
      plan := [];
      if inp.renderStops {
        return false, plan;
      }
      ok, plan := PruneManifests(inp);
      if !ok {
        return;
      }
      var failed := UpdateSuppressedManifestsStatus(inp);
      if failed {
        return false, plan;
      }
      ok := ValidateRenderedManifests(inp);
      if !ok {
        return;
      }
      ok := ApplyRenderedManifests(inp);
    }

    /** An answer of the API server replaces the copy in memory. */
    method Refresh(v: C.Version)
      modifies this`live
      ensures live == v
    {
      live := v;
    }

    /** The annotation is always rewritten: the spec is compared with an address, which it never equals. */
    method UpdateObservedStatus(inp: C.Inputs)
      modifies this`live, this`lastSpec, this`observed
      ensures Stored() == C.ObserveStep(old(Stored()), inp)
    {
      Refresh(inp.seen);
      if observed == live.generation || !inp.patches.annotate {
        return;
      }
      lastSpec := Some(live.spec);
      if inp.refetched.Some? {
        Refresh(inp.refetched.value);
        if inp.patches.observe {
          observed := live.generation;
        }
      }
    }

    /** A step of another component; its deletion, if any, is of everything tracked. */
    method Detour(d: C.Detour) returns (ghost plan: Plan)
      requires Fresh()
      modifies this, ci, deletion.api
      ensures Stored() == C.Detoured(old(Stored()), d, plan)
      ensures d.GoesOn? ==> Fresh()
    {
      plan := [];
      deletion.api.objects := d.world.objects;
      deletion.api.events := d.world.events;
      if d.Stops? {
        paused := d.pauses;
        if d.removal.Some? {
          var completed, errors;
          completed, errors, plan := deletion.DeleteRenderedObjects(ci, d.removal.value.setting, d.removal.value.saved);
          if d.removal.value.saved {
            stored := ci.manifestsRendered;
          }
        }
      }
    }

    method RenderAndObserve(inp: C.Inputs) returns (ghost plan: Plan)
      requires Fresh()
      modifies this, ci, deletion.api
      ensures Stored() == C.WorkStep(old(Stored()), inp, plan)
    {
      Refresh(inp.rendered);
      var ok;
      ok, plan := HandleRenderTemplates(inp);
      if ok {
        UpdateObservedStatus(inp);
      }
    }

    method Reconcile(inp: C.Inputs) returns (ghost plan: Plan)
      requires Fresh()
      modifies this, ci, deletion.api
      ensures Stored() == C.Reconcile(old(Stored()), inp, plan)
    {
      plan := [];
      if paused {
        return;
      }
      plan := Detour(inp.early);
      if inp.early.Stops? {
        return;
      }
      if restore.Some? && handled != restore {
        if inp.patches.observe {
          observed := live.generation;
          if inp.patches.handled {
            handled := restore;
          }
        }
        return;
      }
      Refresh(inp.gated);
      if inp.reimportStops || observed == live.generation || inp.labelStops {
        return;
      }
      plan := Detour(inp.reinstall);
      if inp.reinstall.Stops? || inp.validationStops {
        return;
      }
      plan := RenderAndObserve(inp);
    }
  }
}
