/**
 One reinstall pass with everything it touches: the stored status, the API server's objects and the
 tracked manifests. Each task answers what its operation answers on the store the earlier ones left.
 */
module ReinstallPass {
  import opened Kube
  import opened Reinstall
  import opened ReinstallSafety
  import opened ReinstallProgress
  import opened ReinstallLaws
  import D = Deletion
  import L = PreservationLaws
  import M = Manifests
  import MC = ManagedCluster
  import P = Preservation
  import W = SyncWaves

  datatype Instance = Instance(namespace: string, owner: string, secrets: seq<string>)

  datatype Whole = Whole(status: Option<ReinstallStatus>, world: World, tracked: seq<M.Manifest>)

  /** What one pass meets: its clock, the configuration, the listings it gets and the calls that fail. */
  datatype Meeting = Meeting(
    now: int,
    stamp: string,
    allowed: bool,
    timeout: Option<int>,
    faults: P.Faults,
    deletionFaults: D.Faults,
    backupLists: P.Listings,
    restoreLists: P.Listings,
    cleanupIds: seq<Identity>,
    cleanupListFails: bool,
    plan: W.Plan,
    listSaved: bool,
    preserved: Tally,
    restored: Tally,
    diff: Option<string>,
    patches: Patches)

  // ----- Labelling the instance's secrets ----------------------------------------------------

  function LabelSecret(w: World, id: Identity, faults: P.Faults): (World, bool) {
    if id in faults.unreadable then (w, true)
    else if id !in w.objects || P.Selected(P.Internal, w.objects[id]) then (w, false)
    else if id in faults.unwritable then (w, true)
    else
      var o := w.objects[id];
      (P.Put(w, id, o.(labels := o.labels[PreserveInternal := P.REQUIRED_RESOURCE])), false)
  }

  /** Secrets that do not exist are passed over; the first error ends the task. */
  function LabelSecrets(w: World, inst: Instance, names: seq<string>, faults: P.Faults): (World, bool)
    decreases |names|
  {
    if names == [] then (w, false)
    else
      var (w', failed) := LabelSecret(w, Identity("v1", "Secret", inst.namespace, names[0]), faults);
      if failed then (w', true) else LabelSecrets(w', inst, names[1..], faults)
  }

  // ----- The pass ----------------------------------------------------------------------------

  function ConfigOf(inst: Instance, req: Request, m: Meeting): P.Config {
    P.Config(inst.namespace, inst.owner, req.generation, req.mode, m.stamp)
  }

  function SettingOf(s: Whole, inst: Instance, m: Meeting): D.Setting {
    D.Setting(inst.owner, MC.Spared(s.tracked), m.now, m.timeout, m.deletionFaults)
  }

  /** The stores after labelling, backup, deletion, restore and cleanup, had the pass come that far. */
  function Labelled(s: Whole, inst: Instance, m: Meeting): (World, bool) {
    LabelSecrets(s.world, inst, inst.secrets, m.faults)
  }

  function BackedUpStore(s: Whole, inst: Instance, req: Request, m: Meeting): (World, bool) {
    P.Backup(Labelled(s, inst, m).0, m.backupLists, ConfigOf(inst, req, m), m.faults)
  }

  function DeletedStore(s: Whole, inst: Instance, req: Request, m: Meeting): D.Result {
    D.DeleteObjects(SettingOf(s, inst, m), BackedUpStore(s, inst, req, m).0, s.tracked, m.plan)
  }

  function RestoredStore(s: Whole, inst: Instance, req: Request, m: Meeting): (World, bool) {
    P.Restore(BackedUpStore(s, inst, req, m).0, m.restoreLists, ConfigOf(inst, req, m), m.faults)
  }

  function CleanedStore(s: Whole, inst: Instance, req: Request, m: Meeting): (World, bool, bool) {
    P.Cleanup(RestoredStore(s, inst, req, m).0, m.cleanupIds, ConfigOf(inst, req, m), m.now, m.deletionFaults, m.cleanupListFails)
  }

  function Report(failed: bool, error: string): Option<string> {
    if failed then Some(error) else None
  }

  /** The tracked list is patched only if it changed; a lost patch is an error of the deletion. */
  function DeletionAnswer(r: D.Result, tracked: seq<M.Manifest>, listSaved: bool): Answer {
    if D.TimeoutError in r.errors then TookTooLong
    else if D.Reported(r, tracked, listSaved) != [] then WentWrong("failed")
    else if r.completed then Finished
    else StillWaiting
  }

  function InputsOf(s: Whole, inst: Instance, req: Request, m: Meeting): Inputs {
    Inputs(m.now,
           Outcomes(m.allowed, Report(Labelled(s, inst, m).1, "label"), Report(BackedUpStore(s, inst, req, m).1, "backup"),
                    m.preserved, None, DeletionAnswer(DeletedStore(s, inst, req, m), s.tracked, m.listSaved),
                    Report(RestoredStore(s, inst, req, m).1, "restore"), m.restored,
                    Report(CleanedStore(s, inst, req, m).2, "cleanup"), m.diff),
           m.patches)
  }

  /** The store after a pass that came to `stage`. */
  function StoreAfter(s: Whole, inst: Instance, req: Request, m: Meeting, stage: Stage, called: bool): World {
    match stage
    case AtTask(Labelling) => Labelled(s, inst, m).0
    case AtTask(Preserving) => BackedUpStore(s, inst, req, m).0
    case AtTask(Deleting) => if called then DeletedStore(s, inst, req, m).world else BackedUpStore(s, inst, req, m).0
    case AtTask(Restoring) => RestoredStore(s, inst, req, m).0
    case Finalizing => CleanedStore(s, inst, req, m).0
    case _ => s.world
  }

  /** The condition patch of the deletion carries the list as well. */
  predicate ListStored(s: Whole, inp: Inputs, listSaved: bool) {
    listSaved || (inp.patches.task && s.status.Some? && DeleteManifests(s.status.value, inp).status != s.status.value)
  }

  function WholeAfter(s: Whole, inst: Instance, req: Request, m: Meeting, o: Outcome, called: bool, stored: bool): Whole {
    Whole(o.status, StoreAfter(s, inst, req, m, o.stage, called),
          if called && stored then DeletedStore(s, inst, req, m).manifests else s.tracked)
  }

  function WholePass(s: Whole, inst: Instance, req: Request, m: Meeting): (Whole, Stage) {
    var inp := InputsOf(s, inst, req, m);
    var o := Pass(s.status, req, inp);
    (WholeAfter(s, inst, req, m, o, CallsNow(s.status, req, inp), ListStored(s, inp, m.listSaved)), o.stage)
  }

  /** A pass that calls the deletion leaves what it leaves; any other one leaves the list alone. */
  lemma WholePassIs(s: Whole, inst: Instance, req: Request, m: Meeting)
    ensures var (s', stage) := WholePass(s, inst, req, m);
            var called, r := CallsNow(s.status, req, InputsOf(s, inst, req, m)), DeletedStore(s, inst, req, m);
            && s'.world == StoreAfter(s, inst, req, m, stage, called)
            && (called ==> s'.world == r.world)
            && s'.tracked == (if called && ListStored(s, InputsOf(s, inst, req, m), m.listSaved) then r.manifests else s.tracked)
  {
    var inp := InputsOf(s, inst, req, m);
    WholeAfterIs(s, inst, req, m, Pass(s.status, req, inp), CallsNow(s.status, req, inp), ListStored(s, inp, m.listSaved));
  }

  lemma WholeAfterIs(s: Whole, inst: Instance, req: Request, m: Meeting, o: Outcome, called: bool, stored: bool)
    requires called ==> o.stage == AtTask(Deleting)
    ensures var s', r := WholeAfter(s, inst, req, m, o, called, stored), DeletedStore(s, inst, req, m);
            && s'.status == o.status
            && s'.world == StoreAfter(s, inst, req, m, o.stage, called)
            && (called ==> s'.world == r.world)
            && s'.tracked == (if called && stored then r.manifests else s.tracked)
  {
  }

  // ----- Deletes come after backups ----------------------------------------------------------

  lemma {:induction false} LabellingLogsNothing(w: World, inst: Instance, names: seq<string>, faults: P.Faults)
    ensures LabelSecrets(w, inst, names, faults).0.events == w.events
    decreases |names|
  {
    if names != [] {
      var (w', failed) := LabelSecret(w, Identity("v1", "Secret", inst.namespace, names[0]), faults);
      LabellingLogsNothing(w', inst, names[1..], faults);
    }
  }

  lemma {:induction false} BackupAllLogsNothing(w: World, ids: seq<Identity>, cfg: P.Config, faults: P.Faults)
    ensures P.BackupAll(w, ids, cfg, faults).0.events == w.events
    decreases |ids|
  {
    if ids != [] {
      BackupAllLogsNothing(P.BackupResource(w, ids[0], cfg, faults).0, ids[1..], cfg, faults);
    }
  }

  lemma BackupLogsNothing(w: World, lists: P.Listings, cfg: P.Config, faults: P.Faults)
    ensures P.Backup(w, lists, cfg, faults).0.events == w.events
  {
    BackupAllLogsNothing(w, lists.first, cfg, faults);
    BackupAllLogsNothing(P.BackupAll(w, lists.first, cfg, faults).0, lists.internal, cfg.(mode := P.Internal), faults);
  }

  lemma {:induction false} RestoreAllLogsNothing(w: World, ids: seq<Identity>, cfg: P.Config, faults: P.Faults)
    ensures P.RestoreAll(w, ids, cfg, faults).0.events == w.events
    decreases |ids|
  {
    if ids != [] {
      RestoreAllLogsNothing(P.RestoreResource(w, ids[0], cfg, faults).0, ids[1..], cfg, faults);
    }
  }

  lemma RestoreLogsNothing(w: World, lists: P.Listings, cfg: P.Config, faults: P.Faults)
    ensures P.Restore(w, lists, cfg, faults).0.events == w.events
  {
    RestoreAllLogsNothing(w, lists.first, cfg, faults);
    RestoreAllLogsNothing(P.RestoreAll(w, lists.first, cfg, faults).0, lists.internal, cfg.(mode := P.Internal), faults);
  }

  /** Which tasks a pass has behind it when it stops at a given one. */
  lemma {:induction false} PassedOver(tasks: seq<Task>, st: ReinstallStatus, req: Request, inp: Inputs, i: nat)
    requires i < |tasks| && RunTasks(tasks, st, req, inp).Stopped? && RunTasks(tasks, st, req, inp).task == tasks[i]
    requires forall j, k | 0 <= j < k < |tasks| :: tasks[j] != tasks[k]
    ensures forall j | 0 <= j < i :: !Stops(RunTask(tasks[j], st, req, inp))
    decreases |tasks|
  {
    if i > 0 {
      TaskEnds(tasks[0], st, req, inp);
      PassedOver(tasks[1..], st, req, inp, i - 1);
      forall j | 0 <= j < i
        ensures !Stops(RunTask(tasks[j], st, req, inp))
      {
        assert j > 0 ==> tasks[j] == tasks[1..][j - 1];
      }
    }
  }

  lemma BeforeDeleting(st: ReinstallStatus, req: Request, inp: Inputs)
    requires Work(st, req, inp).stage == AtTask(Deleting)
    ensures ValidatedFor(st, inp) && inp.out.labels.None? && BackedUpFor(st, req, inp)
  {
    StageOfWork(st, req, inp);
    StoppedAtDeleting(st, req, inp);
    TaskStops(Validating, st, req, inp);
    TaskStops(Labelling, st, req, inp);
    TaskStops(Preserving, st, req, inp);
  }

  lemma StoppedAtDeleting(st: ReinstallStatus, req: Request, inp: Inputs)
    requires RunTasks(TasksFor(req), st, req, inp).Stopped? && RunTasks(TasksFor(req), st, req, inp).task == Deleting
    ensures forall task | task == Validating || task == Labelling || task == Preserving :: !Stops(RunTask(task, st, req, inp))
  {
    var ts := TasksFor(req);
    assert ts[4] == Deleting && ts[0] == Validating && ts[2] == Labelling && ts[3] == Preserving;
    PassedOver(ts, st, req, inp, 4);
    assert forall j | 0 <= j < 4 :: !Stops(RunTask(ts[j], st, req, inp));
  }

  /** Everything a backup in this mode selects in the store it finds is held as this request's backup. */
  ghost predicate AllHeld(before: World, after: World, cfg: P.Config) {
    forall id | && id in before.objects && P.IsResource(id) && id.namespace == cfg.namespace
                && (P.Selected(cfg.mode, before.objects[id]) || P.Selected(P.Internal, before.objects[id])) ::
      L.Held(after, id, L.Payload(before, id, cfg.generation), cfg)
  }

  lemma BackupHoldsAll(w: World, lists: P.Listings, cfg: P.Config, faults: P.Faults)
    requires L.PassOf(cfg, cfg) && L.Tidy(w, cfg) && P.BackupListings(w, lists, cfg, faults)
    requires !P.Backup(w, lists, cfg, faults).1
    ensures AllHeld(w, P.Backup(w, lists, cfg, faults).0, cfg)
  {
    forall id | && id in w.objects && P.IsResource(id) && id.namespace == cfg.namespace
                && (P.Selected(cfg.mode, w.objects[id]) || P.Selected(P.Internal, w.objects[id]))
      ensures L.Held(P.Backup(w, lists, cfg, faults).0, id, L.Payload(w, id, cfg.generation), cfg)
    {
      L.BackupTakes(w, lists, cfg, cfg, faults, id);
    }
  }

  /** The store in which the backup of this pass works is a tidy one, and it is listed truthfully. */
  ghost predicate Orderly(s: Whole, inst: Instance, req: Request, m: Meeting) {
    var cfg := ConfigOf(inst, req, m);
    && L.PassOf(cfg, cfg) && L.Tidy(Labelled(s, inst, m).0, cfg)
    && P.BackupListings(Labelled(s, inst, m).0, m.backupLists, cfg, m.faults)
  }

  /**
   In a pass that sends any call about the tracked manifests, reinstalls are enabled and every resource
   the mode selects is held in a backup of this request before the first of them. Other than that, only
   the cleanup of a pass that finalizes sends anything.
   */
  lemma DeletesOnlyAfterBackup(s: Whole, inst: Instance, req: Request, m: Meeting)
    ensures var (s', stage) := WholePass(s, inst, req, m);
            var (w0, w1) := (Labelled(s, inst, m).0, BackedUpStore(s, inst, req, m).0);
            s'.world.events != s.world.events && stage != Finalizing ==>
              && m.allowed
              && w1.events == s.world.events
              && s'.world == D.DeleteObjects(SettingOf(s, inst, m), w1, s.tracked, m.plan).world
              && (req.mode == P.NoPreservation || !BackedUpStore(s, inst, req, m).1)
              && (req.mode != P.NoPreservation && Orderly(s, inst, req, m) ==> AllHeld(w0, w1, ConfigOf(inst, req, m)))
  {
    var inp := InputsOf(s, inst, req, m);
    var cfg := ConfigOf(inst, req, m);
    var w0 := Labelled(s, inst, m).0;
    LabellingLogsNothing(s.world, inst, inst.secrets, m.faults);
    BackupLogsNothing(w0, m.backupLists, cfg, m.faults);
    RestoreLogsNothing(BackedUpStore(s, inst, req, m).0, m.restoreLists, cfg, m.faults);
    if WholePass(s, inst, req, m).0.world.events != s.world.events && WholePass(s, inst, req, m).1 != Finalizing {
      AtDeletion(s, inst, req, m, inp);
      if req.mode != P.NoPreservation && Orderly(s, inst, req, m) {
        BackupHoldsAll(w0, m.backupLists, cfg, m.faults);
      }
    }
  }

  lemma AtDeletion(s: Whole, inst: Instance, req: Request, m: Meeting, inp: Inputs)
    requires inp == InputsOf(s, inst, req, m) && CallsNow(s.status, req, inp)
    ensures m.allowed && (req.mode == P.NoPreservation || !BackedUpStore(s, inst, req, m).1)
  {
    BeforeDeleting(s.status.value, req, inp);
  }

  // ----- What the stores of a pass are -------------------------------------------------------

  /** A secret of the instance that could not be read, or had to be labelled and could not be written. */
  predicate Unlabelled(w: World, id: Identity, faults: P.Faults) {
    || id in faults.unreadable
    || (id in w.objects && id in faults.unwritable
        && !(PreserveInternal in w.objects[id].labels && w.objects[id].labels[PreserveInternal] == "cluster-instance-required-resource"))
  }

  function SecretId(inst: Instance, name: string): Identity {
    Identity("v1", "Secret", inst.namespace, name)
  }

  lemma LabelOneLeaves(w: World, id: Identity, faults: P.Faults, x: Identity)
    ensures var (w', failed) := LabelSecret(w, id, faults);
            && (failed <==> Unlabelled(w, id, faults))
            && (x in w.objects <==> x in w'.objects)
            && (x in w.objects && (failed || x != id) ==> w'.objects[x] == w.objects[x])
            && (!failed && id in w.objects ==>
                  w'.objects[id] == w.objects[id].(labels := w.objects[id].labels[PreserveInternal := "cluster-instance-required-resource"]))
  {
    if id in w.objects && P.Selected(P.Internal, w.objects[id]) {
      assert w.objects[id].labels == w.objects[id].labels[PreserveInternal := "cluster-instance-required-resource"];
    }
  }

  /**
   Without failing calls every secret of the instance that exists carries the operator's label afterwards, and
   nothing else has changed; the task fails exactly if some secret cannot be labelled.
   */
  lemma {:induction false} SecretsAreLabelled(w: World, inst: Instance, names: seq<string>, faults: P.Faults, x: Identity)
    ensures var (w', failed) := LabelSecrets(w, inst, names, faults);
            && (failed <==> exists name | name in names :: Unlabelled(w, SecretId(inst, name), faults))
            && (x in w.objects <==> x in w'.objects)
            && ((forall name | name in names :: x != SecretId(inst, name)) && x in w.objects ==> w'.objects[x] == w.objects[x])
            && (!failed && x in w.objects && (exists name | name in names :: x == SecretId(inst, name)) ==>
                  w'.objects[x] == w.objects[x].(labels := w.objects[x].labels[PreserveInternal := "cluster-instance-required-resource"]))
    decreases |names|
  {
    if names != [] {
      var id := SecretId(inst, names[0]);
      var (w1, failed) := LabelSecret(w, id, faults);
      LabelOneLeaves(w, id, faults, x);
      assert names[0] in names && forall name :: name in names <==> name == names[0] || name in names[1..];
      if !failed {
        SecretsAreLabelled(w1, inst, names[1..], faults, x);
        forall name | name in names
          ensures Unlabelled(w1, SecretId(inst, name), faults) <==> Unlabelled(w, SecretId(inst, name), faults)
        {
          LabelOneLeaves(w, id, faults, SecretId(inst, name));
        }
      }
    }
  }

  /** What the deletion's result comes to: a timeout first, then any error or a lost list, then whether it is done. */
  lemma AnswerIff(r: D.Result, tracked: seq<M.Manifest>, saved: bool)
    ensures var a, lost := DeletionAnswer(r, tracked, saved), r.manifests != tracked && !saved;
            && (a == TookTooLong <==> D.TimeoutError in r.errors)
            && (a == WentWrong("failed") <==> D.TimeoutError !in r.errors && (r.errors != [] || lost))
            && (a == Finished <==> r.errors == [] && !lost && r.completed)
            && (a == StillWaiting <==> r.errors == [] && !lost && !r.completed)
  {
  }

  /** A list whose own patch was lost is stored with the deletion's condition, if that is patched; otherwise not. */
  lemma ListIsStored(s: Whole, inst: Instance, req: Request, m: Meeting)
    requires CallsNow(s.status, req, InputsOf(s, inst, req, m))
    ensures var s', inp := WholePass(s, inst, req, m).0, InputsOf(s, inst, req, m);
            && (m.listSaved ==> s'.tracked == DeletedStore(s, inst, req, m).manifests)
            && (!m.listSaved && inp.patches.task && inp.out.deletion.WentWrong? ==> s'.tracked == DeletedStore(s, inst, req, m).manifests)
            && (!m.listSaved && !inp.patches.task ==> s'.tracked == s.tracked)
  {
    WholePassIs(s, inst, req, m);
    var inp := InputsOf(s, inst, req, m);
    if inp.out.deletion.WentWrong? && inp.patches.task {
      WentWrongLeaves(s.status.value, inp);
    }
  }
}
