/**
 Why repeated deletion ends. With no API errors and an environment that finishes every requested
 deletion between two calls, the number of calls is known exactly, whatever was marked before the first; with a slower environment, a call
 that makes no progress is waiting for a deletion already requested.
 */
module DeletionProgress {
  import opened Kube
  import opened Manifests
  import opened SyncWaves
  import opened Deletion
  import opened DeletionSafety

  /** A tracked object the call is to delete and still has to. */
  ghost predicate Live(w: World, ms: seq<Manifest>, cfg: Setting, id: Identity) {
    Tracked(ms, id) && !Excluded(cfg, id) && OwnedLive(w, cfg.owner, id)
  }

  ghost predicate FaultFree(cfg: Setting) {
    cfg.faults.get == {} && cfg.faults.delete == {}
  }

  /** An owned object whose deletion was requested too long ago. */
  predicate Overdue(cfg: Setting, w: World, id: Identity) {
    OwnedLive(w, cfg.owner, id) && Marked(w, id) && Expired(cfg, w.objects[id].deletedAt.value)
  }

  /** No object to delete is overdue; some may be marked. */
  ghost predicate InTime(w: World, ms: seq<Manifest>, cfg: Setting) {
    forall id | Live(w, ms, cfg, id) :: !Overdue(cfg, w, id)
  }

  /** No object to delete is marked. */
  ghost predicate NoneMarked(w: World, ms: seq<Manifest>, cfg: Setting) {
    forall id | Live(w, ms, cfg, id) :: !Marked(w, id)
  }

  /** The waves that hold a live target. */
  ghost function LiveWaves(w: World, ms: seq<Manifest>, cfg: Setting): set<int> {
    set m | m in ms && Live(w, ms, cfg, m.id) :: m.syncWave
  }

  ghost predicate Same(v: World, w: World, id: Identity) {
    (id in v.objects <==> id in w.objects) && (id in v.objects ==> v.objects[id] == w.objects[id])
  }

  ghost predicate Requested(w: World, id: Identity) {
    id !in w.objects || Marked(w, id)
  }

  ghost predicate Among(os: seq<RenderedObject>, id: Identity) {
    exists o | o in os :: o.id == id
  }

  ghost predicate AnyLive(cfg: Setting, p: Pass, os: seq<RenderedObject>) {
    exists o | o in os :: Live(p.world, p.manifests, cfg, o.id)
  }

  lemma DeleteEffect(cfg: Setting, w: World, id: Identity, other: Identity)
    requires FaultFree(cfg) && !Overdue(cfg, w, id)
    ensures var (w', outcome) := DeleteObject(cfg, w, id);
            && (if OwnedLive(w, cfg.owner, id) then outcome.Waiting? && Requested(w', id)
                else (outcome.Gone? || outcome.Foreign?) && w'.objects == w.objects)
            && (other != id ==> Same(w, w', other))
  {
  }

  ghost predicate PromptAt(cfg: Setting, p: Pass, o: RenderedObject) {
    Live(p.world, p.manifests, cfg, o.id) ==> !Overdue(cfg, p.world, o.id)
  }

  /** A step touches one object at most, and asks for its deletion exactly when it is live. */
  lemma StepEffect(cfg: Setting, p: Pass, o: RenderedObject, id: Identity)
    requires FaultFree(cfg) && PromptAt(cfg, p, o)
    ensures var q := StepObject(cfg, p, o);
            && (if Live(p.world, p.manifests, cfg, id) && id == o.id then Requested(q.world, id)
                else Same(p.world, q.world, id))
            && (Tracked(q.removed, id) && !Tracked(p.removed, id) ==> id == o.id && !Live(p.world, p.manifests, cfg, id))
  {
    if Takes(cfg, p, o) {
      DeleteEffect(cfg, p.world, o.id, id);
      TrackedAppend(p.removed, p.manifests[IndexOf(p.manifests, o.id)], id);
    }
  }

  lemma StepFlags(cfg: Setting, p: Pass, o: RenderedObject)
    requires FaultFree(cfg) && PromptAt(cfg, p, o)
    ensures var q := StepObject(cfg, p, o);
            && q.errors == p.errors && q.aborted == p.aborted
            && q.groupDone == (p.groupDone && !Live(p.world, p.manifests, cfg, o.id))
  {
    if Takes(cfg, p, o) {
      DeleteEffect(cfg, p.world, o.id, o.id);
    }
  }

  lemma LiveAfterStep(cfg: Setting, p: Pass, o: RenderedObject, id: Identity)
    requires FaultFree(cfg) && PromptAt(cfg, p, o) && id != o.id
    ensures var q := StepObject(cfg, p, o);
            && (Live(q.world, q.manifests, cfg, id) <==> Live(p.world, p.manifests, cfg, id))
            && (Overdue(cfg, q.world, id) <==> Overdue(cfg, p.world, id))
  {
    StepEffect(cfg, p, o, id);
    StepGrows(cfg, p, o);
    SameEntriesSameIndex(p.manifests, StepObject(cfg, p, o).manifests, id);
  }

  ghost predicate Fresh(cfg: Setting, p: Pass, os: seq<RenderedObject>) {
    DistinctObjects(os) && forall o | o in os :: PromptAt(cfg, p, o)
  }

  lemma FreshTail(cfg: Setting, p: Pass, os: seq<RenderedObject>)
    requires FaultFree(cfg) && os != [] && Fresh(cfg, p, os)
    ensures Fresh(cfg, StepObject(cfg, p, os[0]), os[1..])
    ensures !Among(os[1..], os[0].id)
  {
    assert os[0] in os;
    forall o | o in os[1..]
      ensures o.id != os[0].id && PromptAt(cfg, StepObject(cfg, p, os[0]), o)
    {
      assert o in os;
      LiveAfterStep(cfg, p, os[0], o.id);
    }
  }

  lemma {:induction false} GroupEffect(cfg: Setting, p: Pass, os: seq<RenderedObject>, id: Identity)
    requires FaultFree(cfg) && !p.aborted && Fresh(cfg, p, os)
    ensures var q := RunObjects(cfg, p, os);
            && (if Live(p.world, p.manifests, cfg, id) && Among(os, id) then Requested(q.world, id)
                else Same(p.world, q.world, id))
            && (Tracked(q.removed, id) && !Tracked(p.removed, id) ==>
                  Among(os, id) && !Live(p.world, p.manifests, cfg, id))
    decreases |os|
  {
    if os != [] {
      var o, rest := os[0], os[1..];
      var mid := StepObject(cfg, p, o);
      assert o in os && forall r :: r in os <==> r == o || r in rest;
      StepEffect(cfg, p, o, id);
      StepFlags(cfg, p, o);
      FreshTail(cfg, p, os);
      GroupEffect(cfg, mid, rest, id);
      if id != o.id {
        LiveAfterStep(cfg, p, o, id);
      }
    }
  }

  lemma {:induction false} GroupFlags(cfg: Setting, p: Pass, os: seq<RenderedObject>)
    requires FaultFree(cfg) && !p.aborted && Fresh(cfg, p, os)
    ensures var q := RunObjects(cfg, p, os);
            && q.errors == p.errors && !q.aborted
            && SameEntries(p.manifests, q.manifests)
            && q.groupDone == (p.groupDone && !AnyLive(cfg, p, os))
    decreases |os|
  {
    if os != [] {
      var o, rest := os[0], os[1..];
      var mid := StepObject(cfg, p, o);
      assert o in os && forall r :: r in os <==> r == o || r in rest;
      StepFlags(cfg, p, o);
      StepGrows(cfg, p, o);
      FreshTail(cfg, p, os);
      GroupFlags(cfg, mid, rest);
      forall r | r in rest
        ensures Live(mid.world, mid.manifests, cfg, r.id) <==> Live(p.world, p.manifests, cfg, r.id)
      {
        LiveAfterStep(cfg, p, o, r.id);
      }
    }
  }

  // ----- One call ----------------------------------------------------------------------------

  /** The first group that holds a live target. */
  ghost function FirstLive(cfg: Setting, p: Pass, plan: Plan): nat {
    if plan == [] || AnyLive(cfg, p, plan[0].objects) then 0 else 1 + FirstLive(cfg, p, plan[1..])
  }

  /**
   A call passes over the groups without live targets, requests the deletion of every live target of
   the next group, and stops there.
   */
  lemma {:induction false} WavesEffect(cfg: Setting, p: Pass, plan: Plan, id: Identity)
    requires FaultFree(cfg) && !p.aborted && p.errors == []
    requires forall g | g in plan :: Fresh(cfg, p, g.objects)
    ensures FirstLive(cfg, p, plan) <= |plan|
    ensures var (q, completed) := RunWaves(cfg, p, plan);
            var first := FirstLive(cfg, p, plan);
            && q.errors == []
            && SameEntries(p.manifests, q.manifests)
            && completed == (first == |plan|)
            && (if first < |plan| && Among(plan[first].objects, id) && Live(p.world, p.manifests, cfg, id)
                then Requested(q.world, id)
                else Same(p.world, q.world, id))
            && (Tracked(q.removed, id) && !Tracked(p.removed, id) ==> !Live(p.world, p.manifests, cfg, id))
    decreases |plan|
  {
    if plan != [] {
      var g := plan[0];
      var p' := p.(groupDone := true);
      assert g in plan && Fresh(cfg, p', g.objects);
      GroupFlags(cfg, p', g.objects);
      GroupEffect(cfg, p', g.objects, id);
      assert AnyLive(cfg, p', g.objects) == AnyLive(cfg, p, g.objects);
      if !AnyLive(cfg, p, g.objects) {
        var q := RunObjects(cfg, p', g.objects);
        PassedOver(cfg, p, q, g.objects, plan[1..]);
        StillFresh(cfg, p, q, plan[1..]);
        WavesEffect(cfg, q, plan[1..], id);
        assert Live(p.world, p.manifests, cfg, id) <==> Live(q.world, q.manifests, cfg, id) by {
          SameEntriesSameIndex(p.manifests, q.manifests, id);
        }
      }
    }
  }

  /** A group without live targets leaves the store, and so the rest of the plan, as it was. */
  lemma PassedOver(cfg: Setting, p: Pass, q: Pass, os: seq<RenderedObject>, rest: Plan)
    requires FaultFree(cfg) && !p.aborted && DistinctObjects(os)
    requires q == RunObjects(cfg, p.(groupDone := true), os)
    requires !AnyLive(cfg, p, os)
    ensures q.world.objects == p.world.objects && SameEntries(p.manifests, q.manifests)
    ensures FirstLive(cfg, q, rest) == FirstLive(cfg, p, rest)
  {
    var p' := p.(groupDone := true);
    assert Fresh(cfg, p', os) by {
      assert AnyLive(cfg, p', os) == AnyLive(cfg, p, os);
    }
    GroupFlags(cfg, p', os);
    forall id
      ensures id in q.world.objects <==> id in p.world.objects
      ensures id in p.world.objects ==> q.world.objects[id] == p.world.objects[id]
    {
      GroupEffect(cfg, p', os, id);
      if Among(os, id) {
        var o :| o in os && o.id == id;
        assert !Live(p.world, p.manifests, cfg, o.id);
      }
    }
    assert q.world.objects == p.world.objects;
    SameFirstLive(cfg, p, q, rest);
  }

  lemma StillFresh(cfg: Setting, p: Pass, q: Pass, rest: Plan)
    requires q.world.objects == p.world.objects && SameEntries(p.manifests, q.manifests)
    requires forall g | g in rest :: Fresh(cfg, p, g.objects)
    ensures forall g | g in rest :: Fresh(cfg, q, g.objects)
  {
    forall id {
      SameEntriesSameIndex(p.manifests, q.manifests, id);
    }
  }

  lemma {:induction false} SameFirstLive(cfg: Setting, p: Pass, q: Pass, plan: Plan)
    requires p.world.objects == q.world.objects && SameEntries(p.manifests, q.manifests)
    ensures FirstLive(cfg, p, plan) == FirstLive(cfg, q, plan)
  {
    forall id {
      SameEntriesSameIndex(p.manifests, q.manifests, id);
    }
    if plan != [] {
      assert AnyLive(cfg, p, plan[0].objects) == AnyLive(cfg, q, plan[0].objects);
      SameFirstLive(cfg, p, q, plan[1..]);
    }
  }

  // ----- One call on the whole tracked list --------------------------------------------------

  /** A call of DeleteRenderedObjects that nothing gets in the way of. */
  ghost predicate Undisturbed(w: World, ms: seq<Manifest>, cfg: Setting, plan: Plan) {
    && FaultFree(cfg) && InTime(w, ms, cfg) && DistinctIds(ms)
    && DeletionPlan(plan, ObjectsFor(ms))
  }

  lemma IndexIsUnique(ms: seq<Manifest>, i: nat)
    requires DistinctIds(ms) && i < |ms|
    ensures IndexOf(ms, ms[i].id) == i
  {
    assert ms[i] in ms;
  }

  lemma InGroup(ms: seq<Manifest>, g: Group, id: Identity)
    requires DistinctIds(ms) && Holds(g, ObjectsFor(ms))
    ensures Among(g.objects, id) <==> Tracked(ms, id) && ms[IndexOf(ms, id)].syncWave == g.wave
  {
    var os := ObjectsFor(ms);
    if Tracked(ms, id) {
      var i := IndexOf(ms, id);
      assert os[i] in os;
      RebuildRoundTrip(ms[i], 0);
      MemberOfGroup(g, os, os[i]);
    }
    if Among(g.objects, id) {
      var o :| o in g.objects && o.id == id;
      MemberOfGroup(g, os, o);
      var i :| 0 <= i < |os| && os[i] == o;
      IndexIsUnique(ms, i);
      RebuildRoundTrip(ms[i], 0);
    }
  }

  lemma GroupsFresh(w: World, ms: seq<Manifest>, cfg: Setting, plan: Plan)
    requires Undisturbed(w, ms, cfg, plan)
    ensures forall g | g in plan :: Fresh(cfg, Start(w, ms), g.objects)
  {
    var os := ObjectsFor(ms);
    forall i, j | 0 <= i < j < |os|
      ensures os[i].id != os[j].id
    {
      assert os[i].id == ms[i].id && os[j].id == ms[j].id;
    }
    forall g | g in plan {
      GroupDistinct(g, os);
    }
  }

  lemma LiveWave(w: World, ms: seq<Manifest>, cfg: Setting, v: int)
    requires DistinctIds(ms)
    ensures v in LiveWaves(w, ms, cfg) <==>
            exists id :: Live(w, ms, cfg, id) && ms[IndexOf(ms, id)].syncWave == v
  {
    if v in LiveWaves(w, ms, cfg) {
      var m :| m in ms && Live(w, ms, cfg, m.id) && m.syncWave == v;
      var i :| 0 <= i < |ms| && ms[i] == m;
      IndexIsUnique(ms, i);
    }
    if id :| Live(w, ms, cfg, id) && ms[IndexOf(ms, id)].syncWave == v {
      assert ms[IndexOf(ms, id)] in ms;
    }
  }

  lemma GroupLive(w: World, ms: seq<Manifest>, cfg: Setting, g: Group)
    requires DistinctIds(ms) && Holds(g, ObjectsFor(ms))
    ensures AnyLive(cfg, Start(w, ms), g.objects) <==> g.wave in LiveWaves(w, ms, cfg)
  {
    LiveWave(w, ms, cfg, g.wave);
    if g.wave in LiveWaves(w, ms, cfg) {
      var id :| Live(w, ms, cfg, id) && ms[IndexOf(ms, id)].syncWave == g.wave;
      InGroup(ms, g, id);
    }
    if AnyLive(cfg, Start(w, ms), g.objects) {
      var o :| o in g.objects && Live(w, ms, cfg, o.id);
      InGroup(ms, g, o.id);
    }
  }

  lemma {:induction false} FirstLiveIs(cfg: Setting, p: Pass, plan: Plan)
    ensures var first := FirstLive(cfg, p, plan);
            && first <= |plan|
            && (forall i | 0 <= i < first :: !AnyLive(cfg, p, plan[i].objects))
            && (first < |plan| ==> AnyLive(cfg, p, plan[first].objects))
  {
    if plan != [] && !AnyLive(cfg, p, plan[0].objects) {
      FirstLiveIs(cfg, p, plan[1..]);
    }
  }

  /** The group at which the call stops has the highest live wave; there is none iff nothing is live. */
  lemma TopWave(w: World, ms: seq<Manifest>, cfg: Setting, plan: Plan)
    requires DistinctIds(ms) && DeletionPlan(plan, ObjectsFor(ms))
    ensures var first := FirstLive(cfg, Start(w, ms), plan);
            && first <= |plan|
            && (first == |plan| <==> LiveWaves(w, ms, cfg) == {})
            && (first < |plan| ==> plan[first].wave in LiveWaves(w, ms, cfg)
                                   && forall v | v in LiveWaves(w, ms, cfg) :: v <= plan[first].wave)
  {
    var p := Start(w, ms);
    var first := FirstLive(cfg, p, plan);
    FirstLiveIs(cfg, p, plan);
    forall i | 0 <= i < |plan|
      ensures AnyLive(cfg, p, plan[i].objects) <==> plan[i].wave in LiveWaves(w, ms, cfg)
    {
      assert plan[i] in plan;
      GroupLive(w, ms, cfg, plan[i]);
    }
    forall v | v in LiveWaves(w, ms, cfg)
      ensures first < |plan| && v <= plan[first].wave
    {
      var i := GroupOfWave(w, ms, cfg, plan, v);
      assert first <= i;
    }
  }

  lemma GroupOfWave(w: World, ms: seq<Manifest>, cfg: Setting, plan: Plan, v: int) returns (i: nat)
    requires DeletionPlan(plan, ObjectsFor(ms)) && v in LiveWaves(w, ms, cfg)
    ensures i < |plan| && plan[i].wave == v
  {
    var m :| m in ms && m.syncWave == v;
    var k :| 0 <= k < |ms| && ms[k] == m;
    assert ObjectsFor(ms)[k] in ObjectsFor(ms);
    RebuildRoundTrip(m, 0);
    var g :| g in plan && g.wave == v;
    i :| 0 <= i < |plan| && plan[i] == g;
  }

  lemma StillLive(w: World, ms: seq<Manifest>, cfg: Setting, plan: Plan, id: Identity)
    requires Undisturbed(w, ms, cfg, plan)
    ensures var r := DeleteObjects(cfg, w, ms, plan);
            var first := FirstLive(cfg, Start(w, ms), plan);
            && first <= |plan|
            && r.errors == [] && r.completed == (first == |plan|)
            && (Live(Settle(r.world), r.manifests, cfg, id) <==>
                  Live(Settle(w), ms, cfg, id) && (first < |plan| ==> ms[IndexOf(ms, id)].syncWave != plan[first].wave))
  {
    var p := Start(w, ms);
    GroupsFresh(w, ms, cfg, plan);
    WavesEffect(cfg, p, plan, id);
    var (q, _) := RunWaves(cfg, p, plan);
    var r := DeleteObjects(cfg, w, ms, plan);
    var first := FirstLive(cfg, p, plan);
    SameEntriesSameIndex(ms, q.manifests, id);
    FilterTracks(q.manifests, q.removed, id);
    if first < |plan| {
      assert plan[first] in plan;
      InGroup(ms, plan[first], id);
    }
  }

  lemma FilterTracks(ms: seq<Manifest>, removed: seq<Manifest>, id: Identity)
    ensures Tracked(Filter(ms, removed), id) <==> Tracked(ms, id) && !Tracked(removed, id)
  {
    TrackedMeans(Filter(ms, removed), id);
    TrackedMeans(ms, id);
    if Tracked(ms, id) && !Tracked(removed, id) {
      assert ms[IndexOf(ms, id)] in Filter(ms, removed);
    }
  }

  lemma {:induction false} FilterKeepsOrder(ms: seq<Manifest>, removed: seq<Manifest>)
    requires DistinctIds(ms)
    ensures DistinctIds(Filter(ms, removed))
  {
    if ms != [] {
      FilterKeepsOrder(ms[1..], removed);
      assert forall m | m in Filter(ms[1..], removed) :: m in ms[1..];
    }
  }

  /** Deletion keeps the tracked identities distinct and never changes a wave. */
  lemma CallKeepsDistinct(cfg: Setting, w: World, ms: seq<Manifest>, plan: Plan)
    requires DistinctIds(ms)
    ensures var r := DeleteObjects(cfg, w, ms, plan);
            && DistinctIds(r.manifests)
            && forall m | m in r.manifests :: Tracked(ms, m.id) && ms[IndexOf(ms, m.id)].syncWave == m.syncWave
  {
    var (q, _) := RunWaves(cfg, Start(w, ms), plan);
    WavesGrow(cfg, Start(w, ms), plan);
    FilterKeepsOrder(q.manifests, q.removed);
    forall m | m in Filter(q.manifests, q.removed)
      ensures Tracked(ms, m.id) && ms[IndexOf(ms, m.id)].syncWave == m.syncWave
    {
      var i :| 0 <= i < |q.manifests| && q.manifests[i] == m;
      IndexIsUnique(ms, i);
    }
  }

  lemma {:induction false} GroupGrows(cfg: Setting, p: Pass, os: seq<RenderedObject>)
    ensures Grown(p, RunObjects(cfg, p, os))
    decreases |os|
  {
    if os != [] && !p.aborted {
      StepGrows(cfg, p, os[0]);
      GroupGrows(cfg, StepObject(cfg, p, os[0]), os[1..]);
    }
  }

  lemma {:induction false} WavesGrow(cfg: Setting, p: Pass, plan: Plan)
    ensures Grown(p, RunWaves(cfg, p, plan).0)
    decreases |plan|
  {
    if plan != [] {
      var p' := p.(groupDone := true);
      GroupGrows(cfg, p', plan[0].objects);
      WavesGrow(cfg, RunObjects(cfg, p', plan[0].objects), plan[1..]);
    }
  }

  /**
   One undisturbed call, once the deletions are finished, takes away the highest live wave, and with it
   every wave of which nothing but marked objects was left.
   */
  lemma CallTakesTopWave(w: World, ms: seq<Manifest>, cfg: Setting, plan: Plan)
    requires Undisturbed(w, ms, cfg, plan)
    ensures var r := DeleteObjects(cfg, w, ms, plan);
            var waves := LiveWaves(w, ms, cfg);
            var left := LiveWaves(Settle(r.world), r.manifests, cfg);
            && r.errors == []
            && (r.completed <==> waves == {})
            && (waves == {} ==> left == {})
            && (waves != {} ==> exists top | top in waves ::
                  (forall v | v in waves :: v <= top) && left == LiveWaves(Settle(w), ms, cfg) - {top})
  {
    var r := DeleteObjects(cfg, w, ms, plan);
    var waves := LiveWaves(w, ms, cfg);
    var left := LiveWaves(Settle(r.world), r.manifests, cfg);
    var first := FirstLive(cfg, Start(w, ms), plan);
    TopWave(w, ms, cfg, plan);
    StillLive(w, ms, cfg, plan, Identity("", "", "", ""));
    forall v
      ensures v in left <==> v in LiveWaves(Settle(w), ms, cfg) && (first < |plan| ==> v != plan[first].wave)
    {
      WaveLeft(w, ms, cfg, plan, v);
    }
    SettledWaves(w, ms, cfg);
    if waves != {} {
      assert left == LiveWaves(Settle(w), ms, cfg) - {plan[first].wave};
    }
  }

  lemma WaveLeft(w: World, ms: seq<Manifest>, cfg: Setting, plan: Plan, v: int)
    requires Undisturbed(w, ms, cfg, plan)
    ensures var r, first := DeleteObjects(cfg, w, ms, plan), FirstLive(cfg, Start(w, ms), plan);
            && first <= |plan|
            && (v in LiveWaves(Settle(r.world), r.manifests, cfg) <==>
                v in LiveWaves(Settle(w), ms, cfg) && (first < |plan| ==> v != plan[first].wave))
  {
    var r := DeleteObjects(cfg, w, ms, plan);
    CallKeepsDistinct(cfg, w, ms, plan);
    forall id {
      StillLive(w, ms, cfg, plan, id);
    }
    StillLive(w, ms, cfg, plan, Identity("", "", "", ""));
    LiveWave(Settle(w), ms, cfg, v);
    LiveWave(Settle(r.world), r.manifests, cfg, v);
    forall id | Live(Settle(r.world), r.manifests, cfg, id)
      ensures r.manifests[IndexOf(r.manifests, id)].syncWave == ms[IndexOf(ms, id)].syncWave
    {
      assert r.manifests[IndexOf(r.manifests, id)] in r.manifests;
    }
  }

  /** What is live in the settled store is what is live and not marked. */
  lemma SettledWaves(w: World, ms: seq<Manifest>, cfg: Setting)
    ensures LiveWaves(Settle(w), ms, cfg) <= LiveWaves(w, ms, cfg)
    ensures NoneMarked(w, ms, cfg) ==> LiveWaves(Settle(w), ms, cfg) == LiveWaves(w, ms, cfg)
    ensures NoneMarked(Settle(w), ms, cfg) && InTime(Settle(w), ms, cfg)
  {
    forall id
      ensures Live(Settle(w), ms, cfg, id) <==> Live(w, ms, cfg, id) && !Marked(w, id)
    {
    }
  }

  // ----- Repeated calls ----------------------------------------------------------------------

  datatype Attempt = Attempt(cfg: Setting, plan: Plan)

  /** A call, after which the environment finishes every deletion requested. */
  function After(s: State, a: Attempt): State {
    var r := DeleteObjects(a.cfg, s.world, s.tracked, a.plan);
    State(Settle(r.world), r.manifests)
  }

  ghost predicate EagerRun(s: State, attempts: seq<Attempt>, owner: string, exclude: seq<Identity>)
    decreases |attempts|
  {
    attempts == [] ||
    (&& attempts[0].cfg.owner == owner && attempts[0].cfg.exclude == exclude
     && FaultFree(attempts[0].cfg)
     && DeletionPlan(attempts[0].plan, ObjectsFor(s.tracked))
     && EagerRun(After(s, attempts[0]), attempts[1..], owner, exclude))
  }

  /** The answers of the successive calls. */
  function Answers(s: State, attempts: seq<Attempt>): (r: seq<bool>)
    ensures |r| == |attempts|
    decreases |attempts|
  {
    if attempts == [] then []
    else
      [DeleteObjects(attempts[0].cfg, s.world, s.tracked, attempts[0].plan).completed]
      + Answers(After(s, attempts[0]), attempts[1..])
  }

  /** Those of some waves that lie below one of the others. */
  ghost function Lower(some: set<int>, others: set<int>): set<int> {
    set v | v in some && exists u :: u in others && v < u
  }

  /** The waves that hold an unmarked object to delete count only below the first wave to go. */
  ghost function Needed(unmarked: set<int>, waves: set<int>): nat {
    if waves == {} then 0 else 1 + |Lower(unmarked, waves)|
  }

  /** How many calls come before the one that completes. */
  ghost function CallsNeeded(w: World, ms: seq<Manifest>, cfg: Setting): nat {
    Needed(LiveWaves(Settle(w), ms, cfg), LiveWaves(w, ms, cfg))
  }

  lemma Any<T>(s: set<T>) returns (x: T)
    requires |s| > 0
    ensures x in s
  {
    assert s != {};
    x :| x in s;
  }

  lemma {:induction false} Highest(waves: set<int>) returns (top: int)
    requires |waves| > 0
    ensures top in waves && forall v | v in waves :: v <= top
    decreases |waves|
  {
    var one := Any(waves);
    var rest := waves - {one};
    assert waves == rest + {one};
    top := one;
    if rest != {} {
      var other := Highest(rest);
      top := if other > one then other else one;
    }
  }

  lemma LowerIs(some: set<int>, waves: set<int>, top: int)
    requires some <= waves && top in waves && forall v | v in waves :: v <= top
    ensures Lower(some, waves) == some - {top}
  {
  }

  lemma NoMore(a: set<int>, b: set<int>)
    requires a <= b
    ensures |a| <= |b|
  {
    assert b == a + (b - a);
  }

  lemma NeededBound(unmarked: set<int>, waves: set<int>)
    requires unmarked <= waves
    ensures Needed(unmarked, waves) <= |waves|
    ensures unmarked == waves ==> Needed(unmarked, waves) == |waves|
  {
    if waves != {} {
      var top := Highest(waves);
      LowerIs(unmarked, waves, top);
      NoMore(unmarked - {top}, waves - {top});
    }
  }

  /** Without marked objects every wave with something to delete takes a call, otherwise that is the bound. */
  lemma NeededAtMost(w: World, ms: seq<Manifest>, cfg: Setting)
    ensures CallsNeeded(w, ms, cfg) <= |LiveWaves(w, ms, cfg)|
    ensures NoneMarked(w, ms, cfg) ==> CallsNeeded(w, ms, cfg) == |LiveWaves(w, ms, cfg)|
  {
    SettledWaves(w, ms, cfg);
    NeededBound(LiveWaves(Settle(w), ms, cfg), LiveWaves(w, ms, cfg));
  }

  lemma OneCall(s: State, cfg: Setting, plan: Plan)
    requires Undisturbed(s.world, s.tracked, cfg, plan)
    ensures var k, s' := CallsNeeded(s.world, s.tracked, cfg), After(s, Attempt(cfg, plan));
            && (DeleteObjects(cfg, s.world, s.tracked, plan).completed <==> k == 0)
            && |LiveWaves(s'.world, s'.tracked, cfg)| == (if k == 0 then 0 else k - 1)
  {
    var s' := After(s, Attempt(cfg, plan));
    var unmarked, waves := LiveWaves(Settle(s.world), s.tracked, cfg), LiveWaves(s.world, s.tracked, cfg);
    CallTakesTopWave(s.world, s.tracked, cfg, plan);
    SettledWaves(s.world, s.tracked, cfg);
    if waves != {} {
      var top :| top in waves && (forall v | v in waves :: v <= top) && LiveWaves(s'.world, s'.tracked, cfg) == unmarked - {top};
      LowerIs(unmarked, waves, top);
    }
  }

  lemma EagerStep(s: State, a: Attempt, cfg: Setting)
    requires Undisturbed(s.world, s.tracked, a.cfg, a.plan)
    requires cfg.owner == a.cfg.owner && cfg.exclude == a.cfg.exclude
    ensures var k, s' := CallsNeeded(s.world, s.tracked, cfg), After(s, a);
            && (DeleteObjects(a.cfg, s.world, s.tracked, a.plan).completed <==> k == 0)
            && DistinctIds(s'.tracked)
            && |LiveWaves(s'.world, s'.tracked, cfg)| == (if k == 0 then 0 else k - 1)
  {
    OneCall(s, a.cfg, a.plan);
    SameLiveWaves(s.world, s.tracked, cfg, a.cfg);
    SameLiveWaves(Settle(s.world), s.tracked, cfg, a.cfg);
    SameLiveWaves(After(s, a).world, After(s, a).tracked, cfg, a.cfg);
    CallKeepsDistinct(a.cfg, s.world, s.tracked, a.plan);
  }

  /** Nothing in the store is marked. */
  ghost predicate Unmarked(w: World) {
    Settle(w) == w
  }

  lemma SettledIsUnmarked(w: World)
    ensures Unmarked(Settle(w))
  {
  }

  lemma FirstCall(s: State, a: Attempt, cfg: Setting)
    requires Undisturbed(s.world, s.tracked, a.cfg, a.plan)
    requires cfg.owner == a.cfg.owner && cfg.exclude == a.cfg.exclude
    ensures var k, s' := CallsNeeded(s.world, s.tracked, cfg), After(s, a);
            && (DeleteObjects(a.cfg, s.world, s.tracked, a.plan).completed <==> k == 0)
            && DistinctIds(s'.tracked) && Unmarked(s'.world)
            && |LiveWaves(s'.world, s'.tracked, cfg)| == (if k == 0 then 0 else k - 1)
  {
    EagerStep(s, a, cfg);
    SettledIsUnmarked(DeleteObjects(a.cfg, s.world, s.tracked, a.plan).world);
  }

  lemma NextCall(s: State, a: Attempt, cfg: Setting)
    requires DistinctIds(s.tracked) && Unmarked(s.world) && FaultFree(a.cfg) && DeletionPlan(a.plan, ObjectsFor(s.tracked))
    requires cfg.owner == a.cfg.owner && cfg.exclude == a.cfg.exclude
    ensures var k, s' := |LiveWaves(s.world, s.tracked, cfg)|, After(s, a);
            && (DeleteObjects(a.cfg, s.world, s.tracked, a.plan).completed <==> k == 0)
            && DistinctIds(s'.tracked) && Unmarked(s'.world)
            && |LiveWaves(s'.world, s'.tracked, cfg)| == (if k == 0 then 0 else k - 1)
  {
    SettledWaves(s.world, s.tracked, a.cfg);
    SettledWaves(s.world, s.tracked, cfg);
    NeededAtMost(s.world, s.tracked, cfg);
    FirstCall(s, a, cfg);
  }

  lemma {:induction false} CompletesUnmarked(s: State, attempts: seq<Attempt>, owner: string, exclude: seq<Identity>,
                                             cfg: Setting, i: nat)
    requires DistinctIds(s.tracked) && Unmarked(s.world)
    requires EagerRun(s, attempts, owner, exclude)
    requires cfg.owner == owner && cfg.exclude == exclude
    requires i < |attempts|
    ensures Answers(s, attempts)[i] <==> i >= |LiveWaves(s.world, s.tracked, cfg)|
    decreases i
  {
    NextCall(s, attempts[0], cfg);
    if i > 0 {
      CompletesUnmarked(After(s, attempts[0]), attempts[1..], owner, exclude, cfg, i - 1);
    }
  }

  /**
   Repeated deletion reports completion after exactly the calls that are needed, and from then on: whatever
   order `sort.Slice` gives inside a wave, and whatever was marked before.
   */
  lemma CompletesAtCall(s: State, attempts: seq<Attempt>, owner: string, exclude: seq<Identity>, cfg: Setting, i: nat)
    requires DistinctIds(s.tracked) && EagerRun(s, attempts, owner, exclude)
    requires cfg.owner == owner && cfg.exclude == exclude
    requires i < |attempts| && InTime(s.world, s.tracked, attempts[0].cfg)
    ensures Answers(s, attempts)[i] <==> i >= CallsNeeded(s.world, s.tracked, cfg)
  {
    FirstCall(s, attempts[0], cfg);
    AfterFirst(s, attempts, owner, exclude, cfg, i, CallsNeeded(s.world, s.tracked, cfg));
  }

  lemma AfterFirst(s: State, attempts: seq<Attempt>, owner: string, exclude: seq<Identity>, cfg: Setting, i: nat, k: nat)
    requires EagerRun(s, attempts, owner, exclude) && cfg.owner == owner && cfg.exclude == exclude
    requires i < |attempts|
    requires DeleteObjects(attempts[0].cfg, s.world, s.tracked, attempts[0].plan).completed <==> k == 0
    requires var s' := After(s, attempts[0]);
             && DistinctIds(s'.tracked) && Unmarked(s'.world)
             && |LiveWaves(s'.world, s'.tracked, cfg)| == (if k == 0 then 0 else k - 1)
    ensures Answers(s, attempts)[i] <==> i >= k
  {
    if i > 0 {
      CompletesUnmarked(After(s, attempts[0]), attempts[1..], owner, exclude, cfg, i - 1);
    }
  }

  /**
   With K waves that hold a live, owned and not excluded object, repeated deletion reports completion from
   the (K+1)-th call on at the latest, and never before if none of these objects was marked at the start.
   */
  lemma CompletesAtCallKPlusOne(s: State, attempts: seq<Attempt>, owner: string, exclude: seq<Identity>, cfg: Setting, i: nat)
    requires DistinctIds(s.tracked) && EagerRun(s, attempts, owner, exclude)
    requires cfg.owner == owner && cfg.exclude == exclude
    requires i < |attempts| && InTime(s.world, s.tracked, attempts[0].cfg)
    ensures var k := |LiveWaves(s.world, s.tracked, cfg)|;
            && (i >= k ==> Answers(s, attempts)[i])
            && (NoneMarked(s.world, s.tracked, cfg) ==> (Answers(s, attempts)[i] <==> i >= k))
  {
    CompletesAtCall(s, attempts, owner, exclude, cfg, i);
    NeededAtMost(s.world, s.tracked, cfg);
  }

  lemma SameLiveWaves(w: World, ms: seq<Manifest>, cfg: Setting, cfg': Setting)
    requires cfg.owner == cfg'.owner && cfg.exclude == cfg'.exclude
    ensures LiveWaves(w, ms, cfg) == LiveWaves(w, ms, cfg')
  {
  }

  // ----- Slower environments -----------------------------------------------------------------

  /** From `v` to `w` an object is untouched, or its deletion was requested for the first time. */
  ghost predicate Towards(cfg: Setting, v: World, w: World, id: Identity) {
    || Same(v, w, id)
    || (&& OwnedLive(v, cfg.owner, id) && !Marked(v, id)
        && Requested(w, id) && (id in w.objects ==> OwnedLive(w, cfg.owner, id)))
  }

  lemma DeleteTowards(cfg: Setting, w: World, deleted: Identity, id: Identity)
    ensures Towards(cfg, w, DeleteObject(cfg, w, deleted).0, id)
  {
  }

  lemma StepTowards(cfg: Setting, p: Pass, o: RenderedObject, id: Identity)
    ensures Towards(cfg, p.world, StepObject(cfg, p, o).world, id)
  {
    DeleteTowards(cfg, p.world, o.id, id);
    var w := StepObject(cfg, p, o).world;
    assert w == p.world || w == DeleteObject(cfg, p.world, o.id).0;
  }

  lemma {:induction false} GroupTowards(cfg: Setting, p: Pass, os: seq<RenderedObject>, id: Identity)
    ensures Towards(cfg, p.world, RunObjects(cfg, p, os).world, id)
    decreases |os|
  {
    if os != [] && !p.aborted {
      StepTowards(cfg, p, os[0], id);
      GroupTowards(cfg, StepObject(cfg, p, os[0]), os[1..], id);
    }
  }

  lemma {:induction false} WavesTowards(cfg: Setting, p: Pass, plan: Plan, id: Identity)
    ensures Towards(cfg, p.world, RunWaves(cfg, p, plan).0.world, id)
    decreases |plan|
  {
    if plan != [] {
      var p' := p.(groupDone := true);
      GroupTowards(cfg, p', plan[0].objects, id);
      WavesTowards(cfg, RunObjects(cfg, p', plan[0].objects), plan[1..], id);
    }
  }

  lemma StepBlocked(cfg: Setting, p: Pass, o: RenderedObject)
    requires p.groupDone && !StepObject(cfg, p, o).groupDone
    ensures Live(p.world, p.manifests, cfg, o.id) && Requested(StepObject(cfg, p, o).world, o.id)
  {
  }

  lemma {:induction false} GroupBlocked(cfg: Setting, p: Pass, os: seq<RenderedObject>) returns (id: Identity)
    requires p.groupDone && !RunObjects(cfg, p, os).groupDone
    ensures Live(p.world, p.manifests, cfg, id) && Requested(RunObjects(cfg, p, os).world, id)
    decreases |os|
  {
    var mid := StepObject(cfg, p, os[0]);
    if mid.groupDone {
      id := GroupBlocked(cfg, mid, os[1..]);
      StepTowards(cfg, p, os[0], id);
      StepGrows(cfg, p, os[0]);
      SameEntriesSameIndex(p.manifests, mid.manifests, id);
    } else {
      id := os[0].id;
      StepBlocked(cfg, p, os[0]);
      GroupTowards(cfg, mid, os[1..], id);
    }
  }

  lemma {:induction false} WavesBlocked(cfg: Setting, p: Pass, plan: Plan) returns (id: Identity)
    requires var (q, completed) := RunWaves(cfg, p, plan); !completed && !q.aborted && q.errors == []
    ensures Live(p.world, p.manifests, cfg, id) && Requested(RunWaves(cfg, p, plan).0.world, id)
    decreases |plan|
  {
    var p' := p.(groupDone := true);
    var q := RunObjects(cfg, p', plan[0].objects);
    GroupGrows(cfg, p', plan[0].objects);
    if q.aborted || q.errors != [] || !q.groupDone {
      id := GroupBlocked(cfg, p', plan[0].objects);
    } else {
      id := WavesBlocked(cfg, q, plan[1..]);
      GroupTowards(cfg, p', plan[0].objects, id);
      SameEntriesSameIndex(p.manifests, q.manifests, id);
    }
  }

  lemma {:induction false} AbortedHasError(cfg: Setting, p: Pass, os: seq<RenderedObject>)
    requires !p.aborted
    ensures var q := RunObjects(cfg, p, os); q.aborted ==> q.errors != []
    decreases |os|
  {
    if os != [] {
      var mid := StepObject(cfg, p, os[0]);
      if !mid.aborted {
        AbortedHasError(cfg, mid, os[1..]);
      }
    }
  }

  lemma {:induction false} WavesAborted(cfg: Setting, p: Pass, plan: Plan)
    requires !p.aborted
    ensures var q := RunWaves(cfg, p, plan).0; q.aborted ==> q.errors != []
    decreases |plan|
  {
    if plan != [] {
      var p' := p.(groupDone := true);
      AbortedHasError(cfg, p', plan[0].objects);
      var q := RunObjects(cfg, p', plan[0].objects);
      if !q.aborted {
        WavesAborted(cfg, q, plan[1..]);
      }
    }
  }

  /** The targets whose deletion has not been requested. */
  ghost function Unrequested(w: World, ms: seq<Manifest>, cfg: Setting): set<Identity> {
    set m | m in ms && Live(w, ms, cfg, m.id) && !Marked(w, m.id) :: m.id
  }

  ghost function Ids(ms: seq<Manifest>): set<Identity> {
    set m | m in ms :: m.id
  }

  /** The environment only finishes deletions that were requested. */
  ghost predicate OnlyFinishes(v: World, w: World) {
    forall id :: Same(v, w, id) || (Marked(v, id) && id !in w.objects)
  }

  /** Under any faults and timeouts, neither a call nor the environment undoes progress. */
  lemma ProgressIsKept(cfg: Setting, w: World, ms: seq<Manifest>, plan: Plan, later: World)
    requires OnlyFinishes(DeleteObjects(cfg, w, ms, plan).world, later)
    ensures var r := DeleteObjects(cfg, w, ms, plan);
            && Ids(r.manifests) <= Ids(ms)
            && Unrequested(later, r.manifests, cfg) <= Unrequested(w, ms, cfg)
  {
    var r := DeleteObjects(cfg, w, ms, plan);
    CallKeepsIds(cfg, w, ms, plan);
    forall id | id in Unrequested(later, r.manifests, cfg)
      ensures id in Unrequested(w, ms, cfg)
    {
      WavesTowards(cfg, Start(w, ms), plan, id);
      assert Same(r.world, later, id);
      assert id in Ids(r.manifests);
      TrackedMeans(ms, id);
      assert ms[IndexOf(ms, id)] in ms;
    }
  }

  lemma CallKeepsIds(cfg: Setting, w: World, ms: seq<Manifest>, plan: Plan)
    ensures Ids(DeleteObjects(cfg, w, ms, plan).manifests) <= Ids(ms)
  {
    var (q, _) := RunWaves(cfg, Start(w, ms), plan);
    WavesGrow(cfg, Start(w, ms), plan);
    forall m | m in q.manifests
      ensures m.id in Ids(ms)
    {
      var i :| 0 <= i < |q.manifests| && q.manifests[i] == m;
      assert ms[i] in ms;
    }
  }

  /**
   A call that neither completes nor reports an error requested the deletion of some target, or found
   one whose deletion had been requested before and is not finished.
   */
  lemma StuckMeansWaiting(cfg: Setting, w: World, ms: seq<Manifest>, plan: Plan)
    requires var r := DeleteObjects(cfg, w, ms, plan); !r.completed && r.errors == []
    ensures var r := DeleteObjects(cfg, w, ms, plan);
            || Unrequested(r.world, r.manifests, cfg) < Unrequested(w, ms, cfg)
            || exists id :: Live(w, ms, cfg, id) && Marked(w, id)
  {
    WavesAborted(cfg, Start(w, ms), plan);
    var id := WavesBlocked(cfg, Start(w, ms), plan);
    var r := DeleteObjects(cfg, w, ms, plan);
    ProgressIsKept(cfg, w, ms, plan, r.world);
    if !Marked(w, id) {
      assert ms[IndexOf(ms, id)] in ms;
      assert id in Unrequested(w, ms, cfg) && id !in Unrequested(r.world, r.manifests, cfg);
    }
  }
}
