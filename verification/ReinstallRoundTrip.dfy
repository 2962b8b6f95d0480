/**
 The round trip through a whole reinstall: what the first successful backup took is what the store holds
 when the request is finalized, whatever the passes in between deleted, restored or failed to do, and
 whatever others did to the originals.
 */
module ReinstallRoundTrip {
  import opened Kube
  import opened Reinstall
  import opened ReinstallPass
  import D = Deletion
  import L = PreservationLaws
  import M = Manifests
  import P = Preservation
  import RL = ReinstallLaws
  import RP = ReinstallProgress
  import S = DeletionSafety
  import W = SyncWaves

  /** The tracked objects and the instance's secrets: what the passes label or delete. */
  type Ours = iset<Identity>

  ghost predicate AllOurs(ms: seq<M.Manifest>, ours: Ours) {
    forall m | m in ms :: m.id in ours
  }

  ghost predicate SecretsOurs(inst: Instance, names: seq<string>, ours: Ours) {
    forall name | name in names :: Identity("v1", "Secret", inst.namespace, name) in ours
  }

  /** None of them has the name of a backup of this request. */
  ghost predicate Apart(cfg: P.Config, ours: Ours) {
    forall id | id in ours :: !L.BackupNamed(id, cfg.generation)
  }

  /** The secrets to be labelled are no backups. */
  ghost predicate SecretsPlain(w: World, inst: Instance, names: seq<string>) {
    forall name | name in names :: var id := Identity("v1", "Secret", inst.namespace, name); id in w.objects ==> w.objects[id].body.Plain?
  }

  // ----- Labelling and deleting touch only ours ----------------------------------------------

  predicate Unchanged(v: World, w: World, id: Identity) {
    (id in v.objects <==> id in w.objects) && (id in v.objects ==> v.objects[id] == w.objects[id])
  }

  /** The contents are the same, and those of a backup also keep their labels. */
  predicate Kept(o: Object, o': Object) {
    o'.body == o.body && o'.annotations == o.annotations && (o'.labels == o.labels || o.body.Plain?)
  }

  ghost predicate TouchedAt(v: World, w: World, ours: Ours, id: Identity) {
    || Unchanged(v, w, id)
    || (id in ours && (id in w.objects ==> id in v.objects && Kept(v.objects[id], w.objects[id])))
  }

  ghost predicate Touches(v: World, w: World, ours: Ours) {
    forall id :: TouchedAt(v, w, ours, id)
  }

  lemma {:induction false} LabelTouches(w: World, inst: Instance, names: seq<string>, faults: P.Faults, ours: Ours, id: Identity)
    requires SecretsOurs(inst, names, ours) && SecretsPlain(w, inst, names)
    ensures TouchedAt(w, LabelSecrets(w, inst, names, faults).0, ours, id)
    decreases |names|
  {
    if names != [] {
      assert names[0] in names;
      var (w', _) := LabelSecret(w, Identity("v1", "Secret", inst.namespace, names[0]), faults);
      LabelTouches(w', inst, names[1..], faults, ours, id);
    }
  }

  lemma DeleteTouches(cfg: D.Setting, w: World, deleted: Identity, ours: Ours, id: Identity)
    requires deleted in ours
    ensures TouchedAt(w, D.DeleteObject(cfg, w, deleted).0, ours, id)
  {
  }

  lemma StepTouches(cfg: D.Setting, p: D.Pass, o: W.RenderedObject, ours: Ours, id: Identity)
    requires AllOurs(p.manifests, ours)
    ensures TouchedAt(p.world, D.StepObject(cfg, p, o).world, ours, id)
  {
    var i := M.IndexOf(p.manifests, o.id);
    if i >= 0 {
      assert p.manifests[i] in p.manifests;
      DeleteTouches(cfg, p.world, o.id, ours, id);
    }
  }

  lemma StepKeepsOurs(cfg: D.Setting, p: D.Pass, o: W.RenderedObject, ours: Ours)
    requires AllOurs(p.manifests, ours)
    ensures AllOurs(D.StepObject(cfg, p, o).manifests, ours)
  {
    S.StepGrows(cfg, p, o);
    var q := D.StepObject(cfg, p, o);
    forall m | m in q.manifests
      ensures m.id in ours
    {
      var j :| 0 <= j < |q.manifests| && q.manifests[j] == m;
      assert p.manifests[j] in p.manifests;
    }
  }

  lemma {:induction false} GroupTouches(cfg: D.Setting, p: D.Pass, os: seq<W.RenderedObject>, ours: Ours, id: Identity)
    requires AllOurs(p.manifests, ours)
    ensures TouchedAt(p.world, D.RunObjects(cfg, p, os).world, ours, id)
    ensures AllOurs(D.RunObjects(cfg, p, os).manifests, ours)
    decreases |os|
  {
    if os != [] && !p.aborted {
      StepTouches(cfg, p, os[0], ours, id);
      StepKeepsOurs(cfg, p, os[0], ours);
      GroupTouches(cfg, D.StepObject(cfg, p, os[0]), os[1..], ours, id);
    }
  }

  lemma {:induction false} WavesTouch(cfg: D.Setting, p: D.Pass, plan: W.Plan, ours: Ours, id: Identity)
    requires AllOurs(p.manifests, ours)
    ensures TouchedAt(p.world, D.RunWaves(cfg, p, plan).0.world, ours, id)
    ensures AllOurs(D.RunWaves(cfg, p, plan).0.manifests, ours)
    decreases |plan|
  {
    if plan != [] {
      var p' := p.(groupDone := true);
      GroupTouches(cfg, p', plan[0].objects, ours, id);
      WavesTouch(cfg, D.RunObjects(cfg, p', plan[0].objects), plan[1..], ours, id);
    }
  }

  lemma DeletionTouches(cfg: D.Setting, w: World, ms: seq<M.Manifest>, plan: W.Plan, ours: Ours)
    requires AllOurs(ms, ours)
    ensures Touches(w, D.DeleteObjects(cfg, w, ms, plan).world, ours)
    ensures AllOurs(D.DeleteObjects(cfg, w, ms, plan).manifests, ours)
  {
    forall id {
      WavesTouch(cfg, D.Start(w, ms), plan, ours, id);
    }
    WavesTouch(cfg, D.Start(w, ms), plan, ours, Identity("", "", "", ""));
  }

  // ----- What every store of a reinstall keeps -----------------------------------------------

  /** The store is tidy, and the snapshot of `id` is held. */
  ghost predicate Good(w: World, cfg: P.Config, id: Identity, s: Body) {
    L.Tidy(w, cfg) && L.Held(w, id, s, cfg)
  }

  lemma SameStore(v: World, w: World, cfg: P.Config, id: Identity, s: Body)
    requires v.objects == w.objects && Good(v, cfg, id, s)
    ensures Good(w, cfg, id, s)
  {
    assert forall x | x in w.objects && x.namespace == cfg.namespace :: L.TidyObject(x, v.objects[x], cfg);
  }

  lemma TouchedIsElsewhere(v: World, w: World, cfg: P.Config, ours: Ours)
    requires L.Tidy(v, cfg) && Apart(cfg, ours) && Touches(v, w, ours)
    ensures L.Elsewhere(v, w.objects, cfg)
  {
    forall x: Identity | && x.namespace == cfg.namespace
                         && ((x in v.objects <==> x !in w.objects) || (x in w.objects && w.objects[x] != v.objects[x]))
      ensures !L.BackupNamed(x, cfg.generation) && (x in w.objects ==> L.TidyObject(x, w.objects[x], cfg))
    {
      assert TouchedAt(v, w, ours, x);
      assert x in w.objects ==> L.TidyObject(x, v.objects[x], cfg);
    }
  }

  lemma EnvironmentKeeps(w: World, objects: map<Identity, Object>, cfg: P.Config, id: Identity, s: Body)
    requires Good(w, cfg, id, s) && L.Elsewhere(w, objects, cfg)
    ensures Good(w.(objects := objects), cfg, id, s)
  {
    L.NextKeeps(w, L.Environment(objects), cfg, id, s);
  }

  lemma TouchKeeps(v: World, w: World, cfg: P.Config, ours: Ours, id: Identity, s: Body)
    requires Good(v, cfg, id, s) && Apart(cfg, ours) && Touches(v, w, ours)
    ensures Good(w, cfg, id, s)
  {
    TouchedIsElsewhere(v, w, cfg, ours);
    EnvironmentKeeps(v, w.objects, cfg, id, s);
    SameStore(v.(objects := w.objects), w, cfg, id, s);
  }

  lemma BackupKeeps(w: World, lists: P.Listings, pass: P.Config, cfg: P.Config, faults: P.Faults, id: Identity, s: Body)
    requires L.PassOf(pass, cfg) && pass.mode == cfg.mode && P.BackupListings(w, lists, pass, faults)
    requires Good(w, cfg, id, s)
    ensures Good(P.Backup(w, lists, pass, faults).0, cfg, id, s)
  {
    L.BackupStep(w, lists, pass, cfg, faults);
    L.BackupStepHeld(w, lists, pass, cfg, faults, id, s);
  }

  lemma RestoreKeeps(w: World, lists: P.Listings, pass: P.Config, cfg: P.Config, faults: P.Faults, id: Identity, s: Body)
    requires L.PassOf(pass, cfg) && pass.mode == cfg.mode && P.RestoreListings(w, lists, pass, faults)
    requires Good(w, cfg, id, s)
    ensures Good(P.Restore(w, lists, pass, faults).0, cfg, id, s)
  {
    L.RestoreStep(w, lists, pass, cfg, faults);
    L.RestoreStepHeld(w, lists, pass, cfg, faults, id, s);
  }

  // ----- Passes ------------------------------------------------------------------------------

  /** The pass belongs to the request, its secrets are no backups, and its listings are truthful. */
  ghost predicate Truthful(s: Whole, inst: Instance, req: Request, m: Meeting, cfg: P.Config) {
    var pass := ConfigOf(inst, req, m);
    && L.PassOf(pass, cfg) && pass.mode == cfg.mode
    && SecretsPlain(s.world, inst, inst.secrets)
    && P.BackupListings(Labelled(s, inst, m).0, m.backupLists, pass, m.faults)
    && P.RestoreListings(BackedUpStore(s, inst, req, m).0, m.restoreLists, pass, m.faults)
  }

  ghost predicate Covered(s: Whole, inst: Instance, cfg: P.Config, ours: Ours) {
    AllOurs(s.tracked, ours) && SecretsOurs(inst, inst.secrets, ours) && Apart(cfg, ours)
  }

  /** The stores a pass goes through all keep what has to be kept. */
  lemma StoresKeep(s: Whole, inst: Instance, req: Request, m: Meeting, cfg: P.Config, ours: Ours, id: Identity, snap: Body)
    requires Truthful(s, inst, req, m, cfg) && Covered(s, inst, cfg, ours) && Good(s.world, cfg, id, snap)
    ensures Good(Labelled(s, inst, m).0, cfg, id, snap)
    ensures Good(BackedUpStore(s, inst, req, m).0, cfg, id, snap)
    ensures Good(DeletedStore(s, inst, req, m).world, cfg, id, snap)
    ensures AllOurs(DeletedStore(s, inst, req, m).manifests, ours)
    ensures Good(RestoredStore(s, inst, req, m).0, cfg, id, snap)
  {
    var pass := ConfigOf(inst, req, m);
    var w0, w1 := Labelled(s, inst, m).0, BackedUpStore(s, inst, req, m).0;
    forall x {
      LabelTouches(s.world, inst, inst.secrets, m.faults, ours, x);
    }
    TouchKeeps(s.world, w0, cfg, ours, id, snap);
    BackupKeeps(w0, m.backupLists, pass, cfg, m.faults, id, snap);
    DeletionTouches(SettingOf(s, inst, m), w1, s.tracked, m.plan, ours);
    TouchKeeps(w1, DeletedStore(s, inst, req, m).world, cfg, ours, id, snap);
    RestoreKeeps(w1, m.restoreLists, pass, cfg, m.faults, id, snap);
  }

  lemma StoreOfPass(s: Whole, inst: Instance, req: Request, m: Meeting) returns (called: bool)
    ensures var (s', stage) := WholePass(s, inst, req, m);
            && s'.world == StoreAfter(s, inst, req, m, stage, called)
            && (s'.tracked == s.tracked || s'.tracked == DeletedStore(s, inst, req, m).manifests)
  {
    WholePassIs(s, inst, req, m);
    called := RP.CallsNow(s.status, req, InputsOf(s, inst, req, m));
  }

  lemma StoreIsOneOf(s: Whole, inst: Instance, req: Request, m: Meeting, stage: Stage, called: bool)
    requires stage != Finalizing
    ensures var w := StoreAfter(s, inst, req, m, stage, called);
            || w == s.world
            || w == Labelled(s, inst, m).0
            || w == BackedUpStore(s, inst, req, m).0
            || w == DeletedStore(s, inst, req, m).world
            || w == RestoredStore(s, inst, req, m).0
  {
  }

  lemma CoveredStays(s: Whole, inst: Instance, req: Request, m: Meeting, cfg: P.Config, ours: Ours)
    requires Covered(s, inst, cfg, ours)
    ensures Covered(WholePass(s, inst, req, m).0, inst, cfg, ours)
  {
    var called := StoreOfPass(s, inst, req, m);
    DeletionTouches(SettingOf(s, inst, m), BackedUpStore(s, inst, req, m).0, s.tracked, m.plan, ours);
  }

  lemma PassKeeps(s: Whole, inst: Instance, req: Request, m: Meeting, cfg: P.Config, ours: Ours, id: Identity, snap: Body)
    requires Truthful(s, inst, req, m, cfg) && Covered(s, inst, cfg, ours) && Good(s.world, cfg, id, snap)
    requires WholePass(s, inst, req, m).1 != Finalizing
    ensures var s' := WholePass(s, inst, req, m).0;
            Good(s'.world, cfg, id, snap) && Covered(s', inst, cfg, ours)
  {
    var called := StoreOfPass(s, inst, req, m);
    var (s', stage) := WholePass(s, inst, req, m);
    CoveredStays(s, inst, req, m, cfg, ours);
    assert Good(s'.world, cfg, id, snap) by {
      StoreIsOneOf(s, inst, req, m, stage, called);
      StoresKeep(s, inst, req, m, cfg, ours, id, snap);
    }
  }

  /** A pass of the request, or anything others do that spares the backups of this request. */
  datatype Step = Reconciled(m: Meeting) | Environment(objects: map<Identity, Object>)

  function Next(s: Whole, step: Step, inst: Instance, req: Request): Whole {
    match step
    case Reconciled(m) => WholePass(s, inst, req, m).0
    case Environment(objects) => s.(world := s.world.(objects := objects))
  }

  function Run(s: Whole, steps: seq<Step>, inst: Instance, req: Request): Whole
    decreases |steps|
  {
    if steps == [] then s else Run(Next(s, steps[0], inst, req), steps[1..], inst, req)
  }

  ghost predicate Unfinished(s: Whole, steps: seq<Step>, inst: Instance, req: Request, cfg: P.Config)
    decreases |steps|
  {
    steps == [] ||
    (&& (match steps[0]
         case Reconciled(m) => Truthful(s, inst, req, m, cfg) && WholePass(s, inst, req, m).1 != Finalizing
         case Environment(objects) => L.Elsewhere(s.world, objects, cfg))
     && Unfinished(Next(s, steps[0], inst, req), steps[1..], inst, req, cfg))
  }

  lemma {:induction false} RunKeeps(s: Whole, steps: seq<Step>, inst: Instance, req: Request, cfg: P.Config, ours: Ours, id: Identity, snap: Body)
    requires Unfinished(s, steps, inst, req, cfg) && Covered(s, inst, cfg, ours) && Good(s.world, cfg, id, snap)
    ensures var s' := Run(s, steps, inst, req); Covered(s', inst, cfg, ours) && Good(s'.world, cfg, id, snap)
    decreases |steps|
  {
    if steps != [] {
      match steps[0] {
        case Reconciled(m) => PassKeeps(s, inst, req, m, cfg, ours, id, snap);
        case Environment(objects) => EnvironmentKeeps(s.world, objects, cfg, id, snap);
      }
      RunKeeps(Next(s, steps[0], inst, req), steps[1..], inst, req, cfg, ours, id, snap);
    }
  }

  lemma FinalizingRestored(s: Whole, inst: Instance, req: Request, m: Meeting)
    requires WholePass(s, inst, req, m).1 == Finalizing && req.mode != P.NoPreservation
    ensures !RestoredStore(s, inst, req, m).1
  {
    var inp := InputsOf(s, inst, req, m);
    RL.FinalizesIff(s.status.value, req, inp);
    assert inp.out.restore.Some? <==> RestoredStore(s, inst, req, m).1;
  }

  /** The pass that takes the first backup. */
  lemma FirstBackup(s: Whole, inst: Instance, req: Request, m: Meeting, cfg: P.Config, ours: Ours, id: Identity)
    requires cfg == ConfigOf(inst, req, m) && Truthful(s, inst, req, m, cfg) && Covered(s, inst, cfg, ours)
    requires var w0 := Labelled(s, inst, m).0;
             && L.Tidy(w0, cfg) && P.BackupId(id, req.generation) !in w0.objects
             && id in w0.objects && P.IsResource(id) && id.namespace == inst.namespace
             && (P.Selected(req.mode, w0.objects[id]) || P.Selected(P.Internal, w0.objects[id]))
    requires WholePass(s, inst, req, m).1 == AtTask(Preserving) && !BackedUpStore(s, inst, req, m).1
    ensures var s1 := WholePass(s, inst, req, m).0;
            && Good(s1.world, cfg, id, P.SnapshotOf(id, Labelled(s, inst, m).0.objects[id]))
            && Covered(s1, inst, cfg, ours)
  {
    var called := StoreOfPass(s, inst, req, m);
    CoveredStays(s, inst, req, m, cfg, ours);
    PreservingStore(s, inst, req, m, called);
    BackedUpIsGood(s, inst, req, m, cfg, id);
  }

  lemma PreservingStore(s: Whole, inst: Instance, req: Request, m: Meeting, called: bool)
    ensures StoreAfter(s, inst, req, m, AtTask(Preserving), called) == BackedUpStore(s, inst, req, m).0
  {
  }

  lemma BackedUpIsGood(s: Whole, inst: Instance, req: Request, m: Meeting, cfg: P.Config, id: Identity)
    requires cfg == ConfigOf(inst, req, m) && Truthful(s, inst, req, m, cfg)
    requires var w0 := Labelled(s, inst, m).0;
             && L.Tidy(w0, cfg) && P.BackupId(id, req.generation) !in w0.objects
             && id in w0.objects && P.IsResource(id) && id.namespace == inst.namespace
             && (P.Selected(req.mode, w0.objects[id]) || P.Selected(P.Internal, w0.objects[id]))
    requires !BackedUpStore(s, inst, req, m).1
    ensures Good(BackedUpStore(s, inst, req, m).0, cfg, id, P.SnapshotOf(id, Labelled(s, inst, m).0.objects[id]))
  {
    var w0 := Labelled(s, inst, m).0;
    L.BackupTakes(w0, m.backupLists, cfg, cfg, m.faults, id);
    L.BackupStep(w0, m.backupLists, cfg, cfg, m.faults);
  }

  /** The pass that finalizes. */
  lemma FinalRestore(s: Whole, inst: Instance, req: Request, m: Meeting, cfg: P.Config, ours: Ours, id: Identity, snap: Body)
    requires Truthful(s, inst, req, m, cfg) && Covered(s, inst, cfg, ours) && Good(s.world, cfg, id, snap)
    requires WholePass(s, inst, req, m).1 == Finalizing
    ensures var w1, w2 := BackedUpStore(s, inst, req, m).0, RestoredStore(s, inst, req, m).0;
            && snap.Snapshot? && snap.saved.Plain? && L.Restored(w2, id, snap)
            && (id !in w1.objects ==> L.Whole(w2, id, snap))
  {
    StoresKeep(s, inst, req, m, cfg, ours, id, snap);
    FinalizingRestored(s, inst, req, m);
    L.RestorePutsBack(BackedUpStore(s, inst, req, m).0, m.restoreLists, ConfigOf(inst, req, m), cfg, m.faults, id, snap);
  }

  /**
   The round trip of a reinstall. A resource selected by the first backup that succeeds, with no backup of
   it there before, is in the store when the request comes to be finalized, with the data, labels and
   annotations it had at that backup; if it had gone, it is back whole.
   */
  lemma FinalizedMeansRestored(s: Whole, inst: Instance, req: Request, first: Meeting, steps: seq<Step>, last: Meeting,
                               cfg: P.Config, ours: Ours, id: Identity)
    requires cfg == ConfigOf(inst, req, first) && Truthful(s, inst, req, first, cfg) && Covered(s, inst, cfg, ours)
    requires var w0 := Labelled(s, inst, first).0;
             && L.Tidy(w0, cfg) && P.BackupId(id, req.generation) !in w0.objects
             && id in w0.objects && P.IsResource(id) && id.namespace == inst.namespace
             && (P.Selected(req.mode, w0.objects[id]) || P.Selected(P.Internal, w0.objects[id]))
    requires WholePass(s, inst, req, first).1 == AtTask(Preserving) && !BackedUpStore(s, inst, req, first).1
    requires var s1 := WholePass(s, inst, req, first).0;
             && Unfinished(s1, steps, inst, req, cfg)
             && Truthful(Run(s1, steps, inst, req), inst, req, last, cfg)
             && WholePass(Run(s1, steps, inst, req), inst, req, last).1 == Finalizing
    ensures var o := Labelled(s, inst, first).0.objects[id];
            var sn := Run(WholePass(s, inst, req, first).0, steps, inst, req);
            var found, end := BackedUpStore(sn, inst, req, last).0.objects, RestoredStore(sn, inst, req, last).0.objects;
            && o.body.Plain?
            && id in end && end[id].body.Plain? && end[id].body.data == o.body.data
            && end[id].labels == o.labels
            && end[id].annotations - {RestoredAt} == o.annotations - {RestoredAt}
            && (id !in found ==> end[id].body == o.body && end[id].finalizers == o.finalizers)
  {
    var snap := P.SnapshotOf(id, Labelled(s, inst, first).0.objects[id]);
    var s1 := WholePass(s, inst, req, first).0;
    FirstBackup(s, inst, req, first, cfg, ours, id);
    RunKeeps(s1, steps, inst, req, cfg, ours, id, snap);
    FinalRestore(Run(s1, steps, inst, req), inst, req, last, cfg, ours, id, snap);
  }

  lemma {:induction false} CleanupLeaves(w: World, ids: seq<Identity>, setting: D.Setting, x: Identity)
    requires x !in ids
    ensures Unchanged(w, P.CleanupAll(w, ids, setting).0, x)
    decreases |ids|
  {
    if ids != [] {
      CleanupLeaves(D.DeleteObject(setting, w, ids[0]).0, ids[1..], setting, x);
    }
  }

  /** The store that a finalizing pass leaves still has the original, unless the original was itself marked as a backup. */
  lemma FinalizedStore(s: Whole, inst: Instance, req: Request, m: Meeting, id: Identity)
    requires WholePass(s, inst, req, m).1 == Finalizing
    requires P.ToCleanUp(m.cleanupIds, RestoredStore(s, inst, req, m).0, ConfigOf(inst, req, m))
    requires var w := RestoredStore(s, inst, req, m).0;
             id in w.objects && PreservedData !in w.objects[id].labels && PreservedInternalData !in w.objects[id].labels
    ensures Unchanged(RestoredStore(s, inst, req, m).0, WholePass(s, inst, req, m).0.world, id)
  {
    var called := StoreOfPass(s, inst, req, m);
    CleanupLeaves(RestoredStore(s, inst, req, m).0, m.cleanupIds,
                  P.CleanupSetting(ConfigOf(inst, req, m), m.now, m.deletionFaults), id);
  }

  /** So the round trip is one from the store the first backup finds to the store the request leaves. */
  lemma ReinstallKeepsPreserved(s: Whole, inst: Instance, req: Request, first: Meeting, steps: seq<Step>, last: Meeting,
                                cfg: P.Config, ours: Ours, id: Identity)
    requires cfg == ConfigOf(inst, req, first) && Truthful(s, inst, req, first, cfg) && Covered(s, inst, cfg, ours)
    requires var w0 := Labelled(s, inst, first).0;
             && L.Tidy(w0, cfg) && P.BackupId(id, req.generation) !in w0.objects
             && id in w0.objects && P.IsResource(id) && id.namespace == inst.namespace
             && (P.Selected(req.mode, w0.objects[id]) || P.Selected(P.Internal, w0.objects[id]))
             && PreservedData !in w0.objects[id].labels && PreservedInternalData !in w0.objects[id].labels
    requires WholePass(s, inst, req, first).1 == AtTask(Preserving) && !BackedUpStore(s, inst, req, first).1
    requires var s1 := WholePass(s, inst, req, first).0;
             && Unfinished(s1, steps, inst, req, cfg)
             && Truthful(Run(s1, steps, inst, req), inst, req, last, cfg)
             && WholePass(Run(s1, steps, inst, req), inst, req, last).1 == Finalizing
             && P.ToCleanUp(last.cleanupIds, RestoredStore(Run(s1, steps, inst, req), inst, req, last).0, ConfigOf(inst, req, last))
    ensures var o := Labelled(s, inst, first).0.objects[id];
            var end := WholePass(Run(WholePass(s, inst, req, first).0, steps, inst, req), inst, req, last).0.world.objects;
            && id in end && end[id].body.Plain? && end[id].body.data == o.body.data
            && end[id].labels == o.labels
            && end[id].annotations - {RestoredAt} == o.annotations - {RestoredAt}
  {
    FinalizedMeansRestored(s, inst, req, first, steps, last, cfg, ours, id);
    FinalizedStore(Run(WholePass(s, inst, req, first).0, steps, inst, req), inst, req, last, id);
  }
}
