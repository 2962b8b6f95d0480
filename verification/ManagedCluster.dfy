/**
 The entry a reinstall spares: the first ManagedCluster with status "rendered". The object that stands
 for it carries no namespace, so the spared identity is the entry's own only when that one has none.
 */
module ManagedCluster {
  import opened Kube
  import opened Manifests
  import opened SyncWaves
  import opened Deletion
  import opened DeletionSafety
  import opened DeletionProgress

  predicate IsRenderedCluster(m: Manifest) {
    m.id.kind == "ManagedCluster" && m.status == Rendered
  }

  function FirstCluster(ms: seq<Manifest>): Option<Manifest> {
    if ms == [] then None
    else if IsRenderedCluster(ms[0]) then Some(ms[0])
    else FirstCluster(ms[1..])
  }

  method GetManagedClusterManifest(ms: seq<Manifest>) returns (r: Option<Manifest>)
    ensures r == FirstCluster(ms)
  {
    for i := 0 to |ms|
      invariant FirstCluster(ms[i..]) == FirstCluster(ms)
    {
      if IsRenderedCluster(ms[i]) {
        return Some(ms[i]);
      }
      assert ms[i..][1..] == ms[i + 1..];
    }
    return None;
  }

  /** The identities excluded from a reinstall's deletion. */
  function Spared(ms: seq<Manifest>): seq<Identity> {
    match FirstCluster(ms)
    case None => []
    case Some(m) => [m.id.(namespace := "")]
  }

  /** Sparing works exactly when the entry has no namespace. */
  lemma SparedIffNoNamespace(ms: seq<Manifest>, m: Manifest)
    requires FirstCluster(ms) == Some(m)
    ensures m.id in Spared(ms) <==> m.id.namespace == ""
  {
    assert m.id == m.id.(namespace := "") <==> m.id.namespace == "";
  }

  /** Entries change only into one of the deletion statuses, and excluded ones not at all. */
  ghost predicate Sparing(cfg: Setting, p: Pass, q: Pass) {
    && SameEntries(p.manifests, q.manifests)
    && (forall i | 0 <= i < |p.manifests| ::
          q.manifests[i] == p.manifests[i]
          || (!Excluded(cfg, p.manifests[i].id) && q.manifests[i].status != Rendered))
    && (forall id | Excluded(cfg, id) :: Tracked(q.removed, id) ==> Tracked(p.removed, id))
  }

  lemma StepSparing(cfg: Setting, p: Pass, o: RenderedObject)
    ensures Sparing(cfg, p, StepObject(cfg, p, o))
  {
    StepGrows(cfg, p, o);
    if Takes(cfg, p, o) {
      forall id {
        TrackedAppend(p.removed, p.manifests[IndexOf(p.manifests, o.id)], id);
      }
    }
  }

  lemma {:induction false} GroupSparing(cfg: Setting, p: Pass, os: seq<RenderedObject>)
    ensures Sparing(cfg, p, RunObjects(cfg, p, os))
    decreases |os|
  {
    if os != [] && !p.aborted {
      StepSparing(cfg, p, os[0]);
      GroupSparing(cfg, StepObject(cfg, p, os[0]), os[1..]);
    }
  }

  lemma {:induction false} WavesSparing(cfg: Setting, p: Pass, plan: Plan)
    ensures Sparing(cfg, p, RunWaves(cfg, p, plan).0)
    decreases |plan|
  {
    if plan != [] {
      var p' := p.(groupDone := true);
      GroupSparing(cfg, p', plan[0].objects);
      WavesSparing(cfg, RunObjects(cfg, p', plan[0].objects), plan[1..]);
    }
  }

  lemma {:induction false} FirstClusterKept(before: seq<Manifest>, after: seq<Manifest>, removed: seq<Manifest>, m: Manifest)
    requires |before| == |after| && FirstCluster(before) == Some(m)
    requires forall i | 0 <= i < |before| ::
               after[i] == before[i] || (before[i].id != m.id && after[i].status != Rendered)
    requires !Tracked(removed, m.id)
    ensures FirstCluster(Filter(after, removed)) == Some(m)
  {
    if !IsRenderedCluster(before[0]) {
      assert !IsRenderedCluster(after[0]);
      FirstClusterKept(before[1..], after[1..], removed, m);
    }
  }

  /** A call keeps the spared entry, status included, and sends no Delete for it. */
  lemma CallSparesCluster(cfg: Setting, w: World, ms: seq<Manifest>, plan: Plan, m: Manifest)
    requires FirstCluster(ms) == Some(m) && m.id.namespace == "" && cfg.exclude == Spared(ms)
    ensures var r := DeleteObjects(cfg, w, ms, plan);
            && FirstCluster(r.manifests) == Some(m)
            && Spared(r.manifests) == Spared(ms)
            && Same(w, r.world, m.id)
  {
    SparedIffNoNamespace(ms, m);
    var p := Start(w, ms);
    var (q, _) := RunWaves(cfg, p, plan);
    WavesSparing(cfg, p, plan);
    FirstClusterKept(ms, q.manifests, q.removed, m);
    WavesSparesObject(cfg, p, plan, m.id);
  }

  lemma {:induction false} GroupSparesObject(cfg: Setting, p: Pass, os: seq<RenderedObject>, id: Identity)
    requires Excluded(cfg, id)
    ensures Same(p.world, RunObjects(cfg, p, os).world, id)
    decreases |os|
  {
    if os != [] && !p.aborted {
      GroupSparesObject(cfg, StepObject(cfg, p, os[0]), os[1..], id);
    }
  }

  lemma {:induction false} WavesSparesObject(cfg: Setting, p: Pass, plan: Plan, id: Identity)
    requires Excluded(cfg, id)
    ensures Same(p.world, RunWaves(cfg, p, plan).0.world, id)
    decreases |plan|
  {
    if plan != [] {
      var p' := p.(groupDone := true);
      GroupSparesObject(cfg, p', plan[0].objects, id);
      WavesSparesObject(cfg, RunObjects(cfg, p', plan[0].objects), plan[1..], id);
    }
  }

  lemma {:induction false} GroupRemoves(cfg: Setting, p: Pass, os: seq<RenderedObject>, id: Identity)
    ensures var q := RunObjects(cfg, p, os);
            && (Tracked(p.removed, id) ==> Tracked(q.removed, id))
            && (q.groupDone ==> p.groupDone)
            && (Among(os, id) && Tracked(p.manifests, id) && !Excluded(cfg, id) ==>
                  !q.aborted && q.errors == [] && q.groupDone ==> Tracked(q.removed, id))
    decreases |os|
  {
    if os != [] && !p.aborted {
      var o := os[0];
      var mid := StepObject(cfg, p, o);
      StepGrows(cfg, p, o);
      SameEntriesSameIndex(p.manifests, mid.manifests, id);
      GroupGrows(cfg, mid, os[1..]);
      GroupRemoves(cfg, mid, os[1..], id);
      assert forall r :: r in os <==> r == o || r in os[1..];
      if Takes(cfg, p, o) {
        StepRecords(cfg, p, o);
        TrackedAppend(p.removed, p.manifests[IndexOf(p.manifests, o.id)], id);
      }
    }
  }

  lemma {:induction false} WavesRemove(cfg: Setting, p: Pass, plan: Plan, g: Group, id: Identity)
    requires RunWaves(cfg, p, plan).1
    ensures var q := RunWaves(cfg, p, plan).0;
            && (Tracked(p.removed, id) ==> Tracked(q.removed, id))
            && (g in plan && Among(g.objects, id) && Tracked(p.manifests, id) && !Excluded(cfg, id) ==>
                  Tracked(q.removed, id))
    decreases |plan|
  {
    if plan != [] {
      var p' := p.(groupDone := true);
      GroupRemoves(cfg, p', plan[0].objects, id);
      GroupGrows(cfg, p', plan[0].objects);
      var mid := RunObjects(cfg, p', plan[0].objects);
      SameEntriesSameIndex(p.manifests, mid.manifests, id);
      WavesRemove(cfg, mid, plan[1..], g, id);
    }
  }

  /** When a reinstall's deletion completes, only the spared entry is left. */
  lemma CompletedLeavesOnlyExcluded(cfg: Setting, w: World, ms: seq<Manifest>, plan: Plan)
    requires DistinctIds(ms) && DeletionPlan(plan, ObjectsFor(ms))
    requires DeleteObjects(cfg, w, ms, plan).completed
    ensures forall k | k in DeleteObjects(cfg, w, ms, plan).manifests :: Excluded(cfg, k.id)
  {
    var p := Start(w, ms);
    var (q, _) := RunWaves(cfg, p, plan);
    WavesGrow(cfg, p, plan);
    forall k | k in q.manifests && !Excluded(cfg, k.id)
      ensures Tracked(q.removed, k.id)
    {
      var i :| 0 <= i < |q.manifests| && q.manifests[i] == k;
      IndexIsUnique(ms, i);
      assert ObjectsFor(ms)[i] in ObjectsFor(ms);
      RebuildRoundTrip(ms[i], 0);
      var g :| g in plan && g.wave == ms[i].syncWave;
      InGroup(ms, g, k.id);
      WavesRemove(cfg, p, plan, g, k.id);
    }
  }

  lemma OnlyClusterLeft(cfg: Setting, w: World, ms: seq<Manifest>, plan: Plan, m: Manifest)
    requires DistinctIds(ms) && DeletionPlan(plan, ObjectsFor(ms))
    requires FirstCluster(ms) == Some(m) && m.id.namespace == "" && cfg.exclude == Spared(ms)
    requires DeleteObjects(cfg, w, ms, plan).completed
    ensures DeleteObjects(cfg, w, ms, plan).manifests == [m]
  {
    var r := DeleteObjects(cfg, w, ms, plan);
    CompletedLeavesOnlyExcluded(cfg, w, ms, plan);
    CallSparesCluster(cfg, w, ms, plan, m);
    CallKeepsDistinct(cfg, w, ms, plan);
    FirstClusterIn(r.manifests);
    OneIdOneEntry(r.manifests, m);
  }

  lemma OneIdOneEntry(ms: seq<Manifest>, m: Manifest)
    requires DistinctIds(ms) && m in ms && forall k | k in ms :: k.id == m.id
    ensures ms == [m]
  {
    var at :| 0 <= at < |ms| && ms[at] == m;
    forall i | 0 <= i < |ms|
      ensures ms[i] == m && i == at
    {
      assert ms[i] in ms;
    }
    assert ms[0] == m && ms[|ms| - 1] == m;
  }

  lemma {:induction false} FirstClusterIn(ms: seq<Manifest>)
    ensures FirstCluster(ms).Some? ==> FirstCluster(ms).value in ms
  {
    if ms != [] && !IsRenderedCluster(ms[0]) {
      FirstClusterIn(ms[1..]);
    }
  }

  /** A run of reinstall passes: every call excludes what its current list spares. */
  ghost predicate ReinstallRun(s: State, steps: seq<Step>, owner: string)
    decreases |steps|
  {
    steps == [] ||
    (&& (steps[0].Call? ==>
           && steps[0].cfg.owner == owner && steps[0].cfg.exclude == Spared(s.tracked)
           && steps[0].objects == ObjectsFor(s.tracked) && DeletionPlan(steps[0].plan, steps[0].objects))
     && ReinstallRun(Next(s, steps[0]), steps[1..], owner))
  }

  lemma {:induction false} ReinstallRunIsRendered(s: State, steps: seq<Step>, owner: string, m: Manifest)
    requires ReinstallRun(s, steps, owner)
    requires FirstCluster(s.tracked) == Some(m) && m.id.namespace == ""
    ensures RenderedRun(s, steps, owner, [m.id])
    ensures FirstCluster(Run(s, steps).tracked) == Some(m)
    decreases |steps|
  {
    if steps != [] {
      SparedIffNoNamespace(s.tracked, m);
      if steps[0].Call? {
        CallSparesCluster(steps[0].cfg, s.world, s.tracked, steps[0].plan, m);
      }
      ReinstallRunIsRendered(Next(s, steps[0]), steps[1..], owner, m);
    }
  }

  /**
   Through any number of reinstall passes and of changes by others, the spared ManagedCluster entry
   keeps its status and stays tracked, and no Delete is ever sent for its object.
   */
  lemma ClusterSurvivesReinstall(s: State, steps: seq<Step>, owner: string, m: Manifest)
    requires DistinctIds(s.tracked) && s.world.events == []
    requires ReinstallRun(s, steps, owner)
    requires FirstCluster(s.tracked) == Some(m) && m.id.namespace == ""
    ensures FirstCluster(Run(s, steps).tracked) == Some(m)
    ensures SentDelete(m.id, owner) !in Run(s, steps).world.events
  {
    ReinstallRunIsRendered(s, steps, owner, m);
    RepeatedDeletionIsWaveSafe(s, steps, owner, [m.id]);
    var events := Run(s, steps).world.events;
    forall i | 0 <= i < |events|
      ensures events[i] != SentDelete(m.id, owner)
    {
      assert events[i].SentDelete? ==> Allowed(events[..i], events[i], TargetsOf(s.tracked, [m.id]), owner);
    }
  }

  /** The entry found is the first of its kind and status; none is found exactly if there is none. */
  lemma {:induction false} FirstClusterIff(ms: seq<Manifest>)
    ensures match FirstCluster(ms)
            case None => forall i | 0 <= i < |ms| :: !(ms[i].id.kind == "ManagedCluster" && ms[i].status == Rendered)
            case Some(m) =>
              exists i | 0 <= i < |ms| ::
                && ms[i] == m && m.id.kind == "ManagedCluster" && m.status == Rendered
                && forall j | 0 <= j < i :: !(ms[j].id.kind == "ManagedCluster" && ms[j].status == Rendered)
  {
    if ms != [] && !IsRenderedCluster(ms[0]) {
      FirstClusterIff(ms[1..]);
      assert forall j | 0 < j < |ms| :: ms[j] == ms[1..][j - 1];
      if FirstCluster(ms[1..]).Some? {
        var i :| 0 <= i < |ms[1..]| && ms[1..][i] == FirstCluster(ms[1..]).value
                 && forall j | 0 <= j < i :: !(ms[1..][j].id.kind == "ManagedCluster" && ms[1..][j].status == Rendered);
        assert ms[i + 1] == FirstCluster(ms).value;
      }
    }
  }
}
