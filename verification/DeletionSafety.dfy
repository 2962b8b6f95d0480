/**
 What wave-ordered deletion never does, over any number of calls. Between two calls, and whenever a
 call fails, the rest of the cluster may change the store in any way at all.
 */
module DeletionSafety {
  import opened Kube
  import opened Manifests
  import opened SyncWaves
  import opened Deletion

  /** The object was looked up and found absent, or owned by someone else. */
  ghost predicate Seen(events: seq<Event>, id: Identity) {
    SawAbsent(id) in events || SawForeign(id) in events
  }

  /** The tracked objects that are to be deleted, each with its wave. */
  type Targets = map<Identity, int>

  ghost predicate HigherSeen(events: seq<Event>, targets: Targets, wave: int) {
    forall id | id in targets && targets[id] > wave :: Seen(events, id)
  }

  ghost predicate Allowed(before: seq<Event>, e: Event, targets: Targets, owner: string)
    requires e.SentDelete?
  {
    e.owner == owner && e.id in targets && HigherSeen(before, targets, targets[e.id])
  }

  /**
   Every Delete went to a target that carried the owner's label when it was sent, and only after each
   target of a higher wave had been found absent or not owned.
   */
  ghost predicate WaveSafe(events: seq<Event>, targets: Targets, owner: string) {
    forall i | 0 <= i < |events| && events[i].SentDelete? :: Allowed(events[..i], events[i], targets, owner)
  }

  lemma WaveSafeAppend(events: seq<Event>, e: Event, targets: Targets, owner: string)
    requires WaveSafe(events, targets, owner)
    requires e.SentDelete? ==> Allowed(events, e, targets, owner)
    ensures WaveSafe(events + [e], targets, owner)
  {
    var all := events + [e];
    forall i | 0 <= i < |all| && all[i].SentDelete?
      ensures Allowed(all[..i], all[i], targets, owner)
    {
      assert all[..i] == events[..i];
      assert events[..|events|] == events;
    }
  }

  ghost predicate Excluded(cfg: Setting, id: Identity) {
    id in cfg.exclude
  }

  /** What holds between two points of one call. */
  ghost predicate Grown(p: Pass, q: Pass) {
    && SameEntries(p.manifests, q.manifests)
    && p.world.events <= q.world.events
    && p.removed <= q.removed
    && p.errors <= q.errors
  }

  /** The entries marked for removal are those found gone or foreign since `from`. */
  ghost predicate RemovedIsSeen(p: Pass, from: nat) {
    && from <= |p.world.events|
    && forall id :: Tracked(p.removed, id) <==> Seen(p.world.events[from..], id)
  }

  lemma TrackedAppend(ms: seq<Manifest>, m: Manifest, id: Identity)
    ensures Tracked(ms + [m], id) <==> Tracked(ms, id) || m.id == id
  {
    TrackedMeans(ms + [m], id);
    TrackedMeans(ms, id);
    assert Tracked(ms, id) ==> ms[IndexOf(ms, id)] in ms + [m];
    assert m in ms + [m];
  }

  /** What looking at one object records. */
  ghost function Recorded(cfg: Setting, w: World, id: Identity): seq<Event> {
    if id in cfg.faults.get then []
    else if id !in w.objects then [SawAbsent(id)]
    else if Owner(w.objects[id]) != cfg.owner then [SawForeign(id)]
    else if w.objects[id].deletedAt.None? then [SentDelete(id, cfg.owner)]
    else []
  }

  lemma DeleteRecords(cfg: Setting, w: World, id: Identity)
    ensures var (w', outcome) := DeleteObject(cfg, w, id);
            var call := Recorded(cfg, w, id);
            && w'.events == w.events + call
            && (outcome.Gone? || outcome.Foreign? <==> call == [SawAbsent(id)] || call == [SawForeign(id)])
  {
  }

  lemma StepGrows(cfg: Setting, p: Pass, o: RenderedObject)
    ensures var q := StepObject(cfg, p, o); Grown(p, q) && (q.groupDone ==> p.groupDone)
  {
    DeleteRecords(cfg, p.world, o.id);
  }

  ghost predicate Takes(cfg: Setting, p: Pass, o: RenderedObject) {
    Tracked(p.manifests, o.id) && !Excluded(cfg, o.id)
  }

  /** The one call a step may record, and the bookkeeping that goes with it. */
  lemma StepRecords(cfg: Setting, p: Pass, o: RenderedObject)
    requires Takes(cfg, p, o)
    ensures var q := StepObject(cfg, p, o);
            var call := Recorded(cfg, p.world, o.id);
            var seen := call == [SawAbsent(o.id)] || call == [SawForeign(o.id)];
            && q.world.events == p.world.events + call
            && q.removed == p.removed + (if seen then [p.manifests[IndexOf(p.manifests, o.id)]] else [])
            && (q.groupDone && q.errors == [] ==> seen)
  {
    DeleteRecords(cfg, p.world, o.id);
  }

  lemma StepRemovedIsSeen(cfg: Setting, p: Pass, o: RenderedObject, from: nat)
    requires RemovedIsSeen(p, from)
    ensures RemovedIsSeen(StepObject(cfg, p, o), from)
  {
    if Takes(cfg, p, o) {
      StepRecords(cfg, p, o);
      var call := Recorded(cfg, p.world, o.id);
      assert (p.world.events + call)[from..] == p.world.events[from..] + call;
      forall id {
        TrackedAppend(p.removed, p.manifests[IndexOf(p.manifests, o.id)], id);
      }
    }
  }

  lemma StepSafe(cfg: Setting, p: Pass, o: RenderedObject, targets: Targets)
    requires WaveSafe(p.world.events, targets, cfg.owner)
    requires Takes(cfg, p, o) ==> o.id in targets && HigherSeen(p.world.events, targets, targets[o.id])
    ensures var q := StepObject(cfg, p, o);
            && WaveSafe(q.world.events, targets, cfg.owner)
            && (q.groupDone && q.errors == [] && Takes(cfg, p, o) ==> Seen(q.world.events, o.id))
  {
    if Takes(cfg, p, o) {
      StepRecords(cfg, p, o);
      var call := Recorded(cfg, p.world, o.id);
      if call != [] {
        WaveSafeAppend(p.world.events, call[0], targets, cfg.owner);
      }
    }
  }

  lemma {:induction false} GroupSafe(cfg: Setting, p: Pass, os: seq<RenderedObject>, targets: Targets, wave: int, from: nat)
    requires WaveSafe(p.world.events, targets, cfg.owner) && RemovedIsSeen(p, from)
    requires HigherSeen(p.world.events, targets, wave)
    requires forall o | o in os && Takes(cfg, p, o) ::
               o.id in targets && targets[o.id] == wave
    ensures var q := RunObjects(cfg, p, os);
            && Grown(p, q) && RemovedIsSeen(q, from)
            && WaveSafe(q.world.events, targets, cfg.owner)
            && (q.groupDone ==> p.groupDone)
            && (!q.aborted && q.groupDone && q.errors == [] ==>
                  forall o | o in os && Takes(cfg, p, o) ::
                    Seen(q.world.events, o.id))
    decreases |os|
  {
    if os != [] && !p.aborted {
      StepSafe(cfg, p, os[0], targets);
      StepGrows(cfg, p, os[0]);
      StepRemovedIsSeen(cfg, p, os[0], from);
      var mid := StepObject(cfg, p, os[0]);
      forall id {
        SameEntriesSameIndex(p.manifests, mid.manifests, id);
      }
      GroupSafe(cfg, mid, os[1..], targets, wave, from);
    }
  }

  /** Every target not yet seen is in one of the groups still to be taken, on its own wave. */
  ghost predicate Pending(p: Pass, plan: Plan, targets: Targets) {
    forall id | id in targets && !Seen(p.world.events, id) ::
      Tracked(p.manifests, id) && exists g, o | g in plan && o in g.objects :: o.id == id
  }

  ghost predicate OnOwnWave(cfg: Setting, ms: seq<Manifest>, plan: Plan, targets: Targets) {
    forall g, o | g in plan && o in g.objects && Tracked(ms, o.id) && !Excluded(cfg, o.id) ::
      o.id in targets && targets[o.id] == g.wave
  }

  lemma PendingMeansHigherSeen(p: Pass, plan: Plan, targets: Targets, cfg: Setting)
    requires plan != [] && Descending(plan)
    requires OnOwnWave(cfg, p.manifests, plan, targets) && Pending(p, plan, targets)
    requires forall id | id in targets :: !Excluded(cfg, id)
    ensures HigherSeen(p.world.events, targets, plan[0].wave)
  {
    assert forall g | g in plan :: g.wave <= plan[0].wave;
  }

  lemma PendingInTail(p: Pass, q: Pass, plan: Plan, targets: Targets, cfg: Setting)
    requires plan != [] && Grown(p, q) && Pending(p, plan, targets)
    requires forall id | id in targets :: !Excluded(cfg, id)
    requires forall o | o in plan[0].objects && Takes(cfg, p, o) ::
               Seen(q.world.events, o.id)
    ensures Pending(q, plan[1..], targets)
  {
    forall id | id in targets && !Seen(q.world.events, id)
      ensures Tracked(q.manifests, id) && exists g, o | g in plan[1..] && o in g.objects :: o.id == id
    {
      SameEntriesSameIndex(p.manifests, q.manifests, id);
      assert !Seen(p.world.events, id);
      var g, o :| g in plan && o in g.objects && o.id == id;
      assert g in plan[1..];
    }
  }

  lemma {:induction false} WavesSafe(cfg: Setting, p: Pass, plan: Plan, targets: Targets, from: nat)
    requires WaveSafe(p.world.events, targets, cfg.owner) && RemovedIsSeen(p, from)
    requires Descending(plan) && !p.aborted && p.errors == []
    requires OnOwnWave(cfg, p.manifests, plan, targets)
    requires Pending(p, plan, targets)
    requires forall id | id in targets :: !Excluded(cfg, id)
    ensures var (q, completed) := RunWaves(cfg, p, plan);
            && Grown(p, q) && RemovedIsSeen(q, from)
            && WaveSafe(q.world.events, targets, cfg.owner)
            && (completed ==> forall id | id in targets :: Seen(q.world.events, id))
    decreases |plan|
  {
    if plan != [] {
      var p' := p.(groupDone := true);
      PendingMeansHigherSeen(p, plan, targets, cfg);
      assert plan[0] in plan;
      GroupSafe(cfg, p', plan[0].objects, targets, plan[0].wave, from);
      var q := RunObjects(cfg, p', plan[0].objects);
      if !q.aborted && q.errors == [] && q.groupDone {
        PendingInTail(p, q, plan, targets, cfg);
        TailOnOwnWave(cfg, p, q, plan, targets);
        WavesSafe(cfg, q, plan[1..], targets, from);
      }
    }
  }

  lemma TailOnOwnWave(cfg: Setting, p: Pass, q: Pass, plan: Plan, targets: Targets)
    requires plan != [] && Grown(p, q) && OnOwnWave(cfg, p.manifests, plan, targets)
    ensures OnOwnWave(cfg, q.manifests, plan[1..], targets)
  {
    forall id {
      SameEntriesSameIndex(p.manifests, q.manifests, id);
    }
    assert forall g | g in plan[1..] :: g in plan;
  }

  // ----- One call ----------------------------------------------------------------------------

  /** The objects handed to the call cover the targets still tracked, on their waves. */
  ghost predicate Conforms(os: seq<RenderedObject>, ms: seq<Manifest>, exclude: seq<Identity>, targets: Targets) {
    && (forall id | id in targets && Tracked(ms, id) :: exists o | o in os :: o.id == id)
    && (forall o | o in os && Tracked(ms, o.id) && o.id !in exclude :: o.id in targets && InWave(o, targets[o.id]))
    && (forall id | id in targets :: id !in exclude)
  }

  lemma PlanServes(plan: Plan, os: seq<RenderedObject>, ms: seq<Manifest>, cfg: Setting, targets: Targets)
    requires DeletionPlan(plan, os) && Conforms(os, ms, cfg.exclude, targets)
    ensures OnOwnWave(cfg, ms, plan, targets)
    ensures forall id | id in targets && Tracked(ms, id) ::
              exists g, o | g in plan && o in g.objects :: o.id == id
  {
    forall g, o | g in plan && o in g.objects && Tracked(ms, o.id) && !Excluded(cfg, o.id)
      ensures o.id in targets && targets[o.id] == g.wave
    {
      MemberOfGroup(g, os, o);
    }
    forall id | id in targets && Tracked(ms, id)
      ensures exists g, o | g in plan && o in g.objects :: o.id == id
    {
      var o :| o in os && o.id == id;
      var g :| g in plan && g.wave == SyncWave(o).value;
      MemberOfGroup(g, os, o);
    }
  }

  /** Identities and waves, in order. */
  function Entries(ms: seq<Manifest>): seq<(Identity, int)> {
    seq(|ms|, i requires 0 <= i < |ms| => (ms[i].id, ms[i].syncWave))
  }

  ghost function Without(entries: seq<(Identity, int)>, gone: iset<Identity>): seq<(Identity, int)> {
    if entries == [] then []
    else (if entries[0].0 in gone then [] else [entries[0]]) + Without(entries[1..], gone)
  }

  lemma {:induction false} FilterEntries(ms: seq<Manifest>, removed: seq<Manifest>, gone: iset<Identity>)
    requires forall id :: id in gone <==> Tracked(removed, id)
    ensures Entries(Filter(ms, removed)) == Without(Entries(ms), gone)
  {
    if ms != [] {
      var rest := Filter(ms[1..], removed);
      FilterEntries(ms[1..], removed, gone);
      assert Entries(ms)[1..] == Entries(ms[1..]);
      EntriesCons(ms[0], rest);
    }
  }

  lemma EntriesCons(m: Manifest, rest: seq<Manifest>)
    ensures Entries([m] + rest) == [(m.id, m.syncWave as int)] + Entries(rest)
  {
  }

  /** The identities one call newly found absent or not owned. */
  ghost function NewlySeen(before: World, after: World): iset<Identity>
    requires before.events <= after.events
  {
    iset id | Seen(after.events[|before.events|..], id)
  }

  /**
   A call keeps the order, the identities and the waves of the tracked list; what it drops is exactly
   what it found absent or not owned. If it reports completion, nothing it was to delete is left.
   */
  lemma CallSafe(cfg: Setting, w: World, ms: seq<Manifest>, os: seq<RenderedObject>, plan: Plan, targets: Targets)
    requires DeletionPlan(plan, os) && Conforms(os, ms, cfg.exclude, targets)
    requires WaveSafe(w.events, targets, cfg.owner)
    requires forall id | id in targets :: Tracked(ms, id) || Seen(w.events, id)
    ensures var r := DeleteObjects(cfg, w, ms, plan);
            && w.events <= r.world.events
            && WaveSafe(r.world.events, targets, cfg.owner)
            && Entries(r.manifests) == Without(Entries(ms), NewlySeen(w, r.world))
            && (r.completed ==> forall id | id in targets :: Seen(r.world.events, id))
  {
    var p := Start(w, ms);
    assert w.events[|w.events|..] == [];
    PlanServes(plan, os, ms, cfg, targets);
    WavesSafe(cfg, p, plan, targets, |w.events|);
    var (q, _) := RunWaves(cfg, p, plan);
    FilterEntries(q.manifests, q.removed, NewlySeen(w, q.world));
    assert Entries(q.manifests) == Entries(ms);
  }

  // ----- Runs --------------------------------------------------------------------------------

  datatype State = State(world: World, tracked: seq<Manifest>)

  /**
   A step of a run: a call, whose new list reaches the API server or not (`saved`), or any change of
   the store by anyone else.
   */
  datatype Step =
    | Call(cfg: Setting, objects: seq<RenderedObject>, plan: Plan, saved: bool)
    | Environment(store: map<Identity, Object>)

  function Next(s: State, step: Step): State {
    match step
    case Call(cfg, _, plan, saved) =>
      var r := DeleteObjects(cfg, s.world, s.tracked, plan);
      State(r.world, if saved then r.manifests else s.tracked)
    case Environment(store) => s.(world := s.world.(objects := store))
  }

  function Run(s: State, steps: seq<Step>): State
    decreases |steps|
  {
    if steps == [] then s else Run(Next(s, steps[0]), steps[1..])
  }

  ghost predicate Legal(s: State, step: Step, owner: string, exclude: seq<Identity>, targets: Targets) {
    match step
    case Call(cfg, objects, plan, _) =>
      && cfg.owner == owner && cfg.exclude == exclude
      && DeletionPlan(plan, objects) && Conforms(objects, s.tracked, exclude, targets)
    case Environment(_) => true
  }

  ghost predicate LegalRun(s: State, steps: seq<Step>, owner: string, exclude: seq<Identity>, targets: Targets)
    decreases |steps|
  {
    steps == [] ||
    (Legal(s, steps[0], owner, exclude, targets) && LegalRun(Next(s, steps[0]), steps[1..], owner, exclude, targets))
  }

  ghost predicate Inv(s: State, owner: string, targets: Targets) {
    && WaveSafe(s.world.events, targets, owner)
    && forall id | id in targets :: Tracked(s.tracked, id) || Seen(s.world.events, id)
  }

  lemma NextKeepsInv(s: State, step: Step, owner: string, exclude: seq<Identity>, targets: Targets)
    requires Inv(s, owner, targets) && Legal(s, step, owner, exclude, targets)
    ensures Inv(Next(s, step), owner, targets)
    ensures s.world.events <= Next(s, step).world.events
  {
    if step.Call? {
      CallSafe(step.cfg, s.world, s.tracked, step.objects, step.plan, targets);
      var r := DeleteObjects(step.cfg, s.world, s.tracked, step.plan);
      var found := r.world.events[|s.world.events|..];
      assert r.world.events == s.world.events + found;
      forall id | id in targets
        ensures Tracked(r.manifests, id) || Seen(r.world.events, id)
      {
        if Tracked(s.tracked, id) && !Seen(found, id) {
          KeptTracked(s.tracked, r.manifests, NewlySeen(s.world, r.world), id);
        }
      }
    }
  }

  lemma KeptTracked(ms: seq<Manifest>, kept: seq<Manifest>, gone: iset<Identity>, id: Identity)
    requires Tracked(ms, id) && id !in gone && Entries(kept) == Without(Entries(ms), gone)
    ensures Tracked(kept, id)
  {
    var i := IndexOf(ms, id);
    KeptEntry(Entries(ms), gone, i);
    var j :| 0 <= j < |kept| && Entries(kept)[j] == Entries(ms)[i];
    assert kept[j] in kept;
  }

  lemma {:induction false} KeptEntry(entries: seq<(Identity, int)>, gone: iset<Identity>, i: nat)
    requires i < |entries| && entries[i].0 !in gone
    ensures entries[i] in Without(entries, gone)
  {
    if i > 0 {
      KeptEntry(entries[1..], gone, i - 1);
    }
  }

  /**
   Over any run of calls and of changes by others, a Delete goes only to an owned, tracked and not
   excluded object, and only when every such object of a higher wave has been found absent or foreign.
   */
  lemma {:induction false} RunIsWaveSafe(s: State, steps: seq<Step>, owner: string, exclude: seq<Identity>, targets: Targets)
    requires Inv(s, owner, targets) && LegalRun(s, steps, owner, exclude, targets)
    ensures Inv(Run(s, steps), owner, targets)
    ensures s.world.events <= Run(s, steps).world.events
    decreases |steps|
  {
    if steps != [] {
      NextKeepsInv(s, steps[0], owner, exclude, targets);
      RunIsWaveSafe(Next(s, steps[0]), steps[1..], owner, exclude, targets);
    }
  }

  // ----- Deleting everything that is tracked -------------------------------------------------

  function TargetsOf(ms: seq<Manifest>, exclude: seq<Identity>): (t: Targets)
    ensures forall id :: id in t <==> Tracked(ms, id) && id !in exclude
    ensures forall id | id in t && Tracked(ms, id) :: t[id] == ms[IndexOf(ms, id)].syncWave
  {
    var ids := set m | m in ms :: m.id;
    map id | id in ids && Tracked(ms, id) && id !in exclude :: ms[IndexOf(ms, id)].syncWave
  }

  /** Every entry of `ms` is one of the entries of `from`. */
  ghost predicate Within(ms: seq<Manifest>, from: seq<Manifest>) {
    forall m | m in ms :: Tracked(from, m.id) && from[IndexOf(from, m.id)].syncWave == m.syncWave
  }

  lemma RenderedConforms(ms: seq<Manifest>, from: seq<Manifest>, exclude: seq<Identity>)
    requires Within(ms, from)
    ensures Conforms(ObjectsFor(ms), ms, exclude, TargetsOf(from, exclude))
  {
    var os := ObjectsFor(ms);
    forall id | Tracked(ms, id)
      ensures exists o | o in os :: o.id == id
    {
      assert os[IndexOf(ms, id)] in os;
    }
    forall o | o in os
      ensures exists m | m in ms :: o == ObjectFor(m)
    {
      var i :| 0 <= i < |os| && os[i] == o;
      assert ms[i] in ms;
    }
    forall m | m in ms {
      RebuildRoundTrip(m, 0);
    }
  }

  lemma WithoutWithin(ms: seq<Manifest>, kept: seq<Manifest>, from: seq<Manifest>, gone: iset<Identity>)
    requires Within(ms, from) && Entries(kept) == Without(Entries(ms), gone)
    ensures Within(kept, from)
  {
    forall m | m in kept
      ensures Tracked(from, m.id) && from[IndexOf(from, m.id)].syncWave == m.syncWave
    {
      var i :| 0 <= i < |kept| && kept[i] == m;
      assert Entries(kept)[i] == (m.id, m.syncWave);
      var j := WithoutMember(Entries(ms), gone, (m.id, m.syncWave));
      assert ms[j] in ms;
    }
  }

  lemma {:induction false} WithoutMember(entries: seq<(Identity, int)>, gone: iset<Identity>, e: (Identity, int)) returns (j: nat)
    requires e in Without(entries, gone)
    ensures j < |entries| && entries[j] == e
  {
    if entries[0] == e {
      j := 0;
    } else {
      var k := WithoutMember(entries[1..], gone, e);
      j := k + 1;
    }
  }

  /** Each call rebuilds its objects from the list, as DeleteRenderedObjects does. */
  ghost predicate RenderedRun(s: State, steps: seq<Step>, owner: string, exclude: seq<Identity>)
    decreases |steps|
  {
    steps == [] ||
    (&& (steps[0].Call? ==>
           && steps[0].cfg.owner == owner && steps[0].cfg.exclude == exclude
           && steps[0].objects == ObjectsFor(s.tracked) && DeletionPlan(steps[0].plan, steps[0].objects))
     && RenderedRun(Next(s, steps[0]), steps[1..], owner, exclude))
  }

  lemma {:induction false} RenderedRunIsLegal(s: State, steps: seq<Step>, owner: string, exclude: seq<Identity>, from: seq<Manifest>)
    requires RenderedRun(s, steps, owner, exclude) && Within(s.tracked, from)
    requires Inv(s, owner, TargetsOf(from, exclude))
    ensures LegalRun(s, steps, owner, exclude, TargetsOf(from, exclude))
    decreases |steps|
  {
    if steps != [] {
      var targets := TargetsOf(from, exclude);
      if steps[0].Call? {
        RenderedConforms(s.tracked, from, exclude);
        CallSafe(steps[0].cfg, s.world, s.tracked, steps[0].objects, steps[0].plan, targets);
        var r := DeleteObjects(steps[0].cfg, s.world, s.tracked, steps[0].plan);
        WithoutWithin(s.tracked, r.manifests, from, NewlySeen(s.world, r.world));
      }
      NextKeepsInv(s, steps[0], owner, exclude, targets);
      RenderedRunIsLegal(Next(s, steps[0]), steps[1..], owner, exclude, from);
    }
  }

  /** Wave order for repeated DeleteRenderedObjects, from any tracked list with distinct waves per identity. */
  lemma RepeatedDeletionIsWaveSafe(s: State, steps: seq<Step>, owner: string, exclude: seq<Identity>)
    requires DistinctIds(s.tracked) && s.world.events == []
    requires RenderedRun(s, steps, owner, exclude)
    ensures WaveSafe(Run(s, steps).world.events, TargetsOf(s.tracked, exclude), owner)
  {
    forall m | m in s.tracked
      ensures Tracked(s.tracked, m.id) && s.tracked[IndexOf(s.tracked, m.id)].syncWave == m.syncWave
    {
      var i :| 0 <= i < |s.tracked| && s.tracked[i] == m;
      assert i == IndexOf(s.tracked, m.id);
    }
    RenderedRunIsLegal(s, steps, owner, exclude, s.tracked);
    RunIsWaveSafe(s, steps, owner, exclude, TargetsOf(s.tracked, exclude));
  }
}
