/**
 Backup, restore and cleanup of ConfigMaps and Secrets, as functions of the store. Every listing may
 come in any order and every read or write may fail; a pass goes on after a failure and reports it.
 */
module Preservation {
  import opened Kube
  import Deletion

  datatype Mode = NoPreservation | All | ClusterIdentity | Internal

  const CLUSTER_IDENTITY := "cluster-identity"
  const REQUIRED_RESOURCE := "cluster-instance-required-resource"

  function ModeName(mode: Mode): string {
    match mode
    case NoPreservation => "None"
    case All => "All"
    case ClusterIdentity => "ClusterIdentity"
    case Internal => "Internal"
  }

  predicate IsResource(id: Identity) {
    id.apiVersion == "v1" && (id.kind == "ConfigMap" || id.kind == "Secret")
  }

  function LowerKind(kind: string): string {
    if kind == "ConfigMap" then "configmap" else "secret"
  }

  function BackupName(kind: string, name: string, generation: string): string {
    LowerKind(kind) + "-" + name + "-" + generation
  }

  function BackupId(id: Identity, generation: string): Identity {
    Identity("v1", "Secret", id.namespace, BackupName(id.kind, id.name, generation))
  }

  /** The label selector of a backup. */
  predicate Selected(mode: Mode, o: Object) {
    match mode
    case NoPreservation => false
    case All => Preserve in o.labels
    case ClusterIdentity => Lookup(o.labels, Preserve) == CLUSTER_IDENTITY
    case Internal => Lookup(o.labels, PreserveInternal) == REQUIRED_RESOURCE
  }

  /** The label selector of a restore. */
  predicate Preserved(mode: Mode, o: Object) {
    match mode
    case NoPreservation => false
    case All => PreservedData in o.labels
    case ClusterIdentity => PreservedData in o.labels
    case Internal => PreservedInternalData in o.labels
  }

  predicate IsInternal(o: Object) {
    Lookup(o.labels, PreserveInternal) == REQUIRED_RESOURCE || Lookup(o.labels, PreservedInternalData) != ""
  }

  datatype Config = Config(namespace: string, owner: string, generation: string, mode: Mode, now: string)

  /** The calls that fail: reads and writes by name, and the listings of the two modes. */
  datatype Faults = Faults(unreadable: set<Identity>, unwritable: set<Identity>, firstList: bool, internalList: bool)

  /** An answer of List for a backup: each match once, in any order. */
  ghost predicate ToBackUp(ids: seq<Identity>, w: World, namespace: string, mode: Mode) {
    && (forall i, j | 0 <= i < j < |ids| :: ids[i] != ids[j])
    && (forall id :: id in ids <==>
          id in w.objects && IsResource(id) && id.namespace == namespace && Selected(mode, w.objects[id]))
  }

  /** An answer of List for a restore. */
  ghost predicate ToRestore(ids: seq<Identity>, w: World, namespace: string, mode: Mode) {
    && (forall i, j | 0 <= i < j < |ids| :: ids[i] != ids[j])
    && (forall id :: id in ids <==>
          id in w.objects && IsResource(id) && id.namespace == namespace && Preserved(mode, w.objects[id]))
  }

  // ----- Backup ------------------------------------------------------------------------------

  function SnapshotOf(id: Identity, o: Object): Body {
    Snapshot(id, o.labels, o.annotations, o.finalizers, o.body)
  }

  /** The Secret a backup starts from when there is none yet. */
  function Fresh(id: Identity, o: Object): Object {
    Object(map[],
           if Lookup(o.labels, Preserve) == CLUSTER_IDENTITY then map[ClusterIdentityData := ""] else map[],
           SnapshotOf(id, o), false, None)
  }

  /** The mutate function: it relabels whatever Secret is there and leaves its payload alone. */
  function Relabelled(b: Object, kind: string, cfg: Config): Object {
    var mark := if cfg.mode == Internal then PreservedInternalData else PreservedData;
    var note := if cfg.mode == Internal then PreserveInternal else Preserve;
    var owned := if cfg.owner == "" then b.labels else b.labels[OwnedBy := cfg.owner];
    var typed := b.annotations[ResourceType := kind];
    var dated := if cfg.generation == "" then typed else typed[ReinstallGeneration := cfg.generation];
    b.(labels := owned[mark := cfg.now], annotations := dated[note := ModeName(cfg.mode)])
  }

  function Put(w: World, id: Identity, o: Object): World {
    w.(objects := w.objects[id := o])
  }

  /** backupResource; the flag is its error. */
  function BackupResource(w: World, id: Identity, cfg: Config, faults: Faults): (World, bool) {
    var target := BackupId(id, cfg.generation);
    if id in faults.unreadable || id !in w.objects || target in faults.unreadable || target in faults.unwritable then (w, true)
    else
      var base := if target in w.objects then w.objects[target] else Fresh(id, w.objects[id]);
      (Put(w, target, Relabelled(base, id.kind, cfg)), false)
  }

  function BackupAll(w: World, ids: seq<Identity>, cfg: Config, faults: Faults): (World, nat)
    decreases |ids|
  {
    if ids == [] then (w, 0)
    else
      var (w1, failed) := BackupResource(w, ids[0], cfg, faults);
      var (w2, errors) := BackupAll(w1, ids[1..], cfg, faults);
      (w2, errors + if failed then 1 else 0)
  }

  /** The listings the two modes of one pass get. */
  datatype Listings = Listings(first: seq<Identity>, internal: seq<Identity>)

  function Backup(w: World, lists: Listings, cfg: Config, faults: Faults): (World, bool) {
    if cfg.mode == NoPreservation then (w, false)
    else if faults.firstList then (w, true)
    else
      var (w1, errors) := BackupAll(w, lists.first, cfg, faults);
      if errors > 0 || faults.internalList then (w1, true)
      else
        var (w2, errors') := BackupAll(w1, lists.internal, cfg.(mode := Internal), faults);
        (w2, errors' > 0)
  }

  /** The listings are what the store answers when each mode comes to ask. */
  ghost predicate BackupListings(w: World, lists: Listings, cfg: Config, faults: Faults) {
    && ToBackUp(lists.first, w, cfg.namespace, cfg.mode)
    && ToBackUp(lists.internal, BackupAll(w, lists.first, cfg, faults).0, cfg.namespace, Internal)
  }

  // ----- Restore -----------------------------------------------------------------------------

  datatype Verdict = Proceed | Skip | Refuse

  /** fetchAndValidateObjectToRestore, once the Secret has been read. */
  function Validate(b: Object, cfg: Config): Verdict {
    if !IsInternal(b) && Preserve !in b.annotations then Refuse
    else if !IsInternal(b) && cfg.mode == ClusterIdentity && b.annotations[Preserve] != ModeName(ClusterIdentity) then Skip
    else if cfg.owner != "" && Owner(b) != cfg.owner then Refuse
    else if cfg.generation != "" && (ReinstallGeneration !in b.annotations || b.annotations[ReinstallGeneration] != cfg.generation) then Refuse
    else Proceed
  }

  predicate Usable(b: Object) {
    && b.body.Snapshot?
    && ResourceType in b.annotations
    && (b.annotations[ResourceType] == "ConfigMap" || b.annotations[ResourceType] == "Secret")
  }

  function WithData(live: Body, saved: Body): Body {
    if live.Plain? && saved.Plain? then Plain(saved.data, live.extra) else saved
  }

  /** What restoring writes: data, labels and annotations of a live object, or the whole of a missing one. */
  function RestoredObject(w: World, target: Identity, s: Body, cfg: Config): Object
    requires s.Snapshot?
  {
    var annotations := s.annotations[RestoredAt := cfg.now];
    if target in w.objects then
      var live := w.objects[target];
      live.(labels := s.labels, annotations := annotations, body := WithData(live.body, s.saved))
    else Object(s.labels, annotations, s.saved, s.finalizers, None)
  }

  /** restoreResource for a listed name; whatever was listed, a Secret of that name is fetched. */
  function RestoreResource(w: World, listed: Identity, cfg: Config, faults: Faults): (World, bool) {
    var id := listed.(kind := "Secret");
    if id in faults.unreadable || id !in w.objects then (w, true)
    else
      var b := w.objects[id];
      match Validate(b, cfg)
      case Refuse => (w, true)
      case Skip => (w, false)
      case Proceed =>
        if !Usable(b) then (w, true)
        else
          var target := b.body.origin.(apiVersion := "v1", kind := b.annotations[ResourceType]);
          if target in faults.unreadable || target in faults.unwritable then (w, true)
          else (Put(w, target, RestoredObject(w, target, b.body, cfg)), false)
  }

  function RestoreAll(w: World, ids: seq<Identity>, cfg: Config, faults: Faults): (World, nat)
    decreases |ids|
  {
    if ids == [] then (w, 0)
    else
      var (w1, failed) := RestoreResource(w, ids[0], cfg, faults);
      var (w2, errors) := RestoreAll(w1, ids[1..], cfg, faults);
      (w2, errors + if failed then 1 else 0)
  }

  function Restore(w: World, lists: Listings, cfg: Config, faults: Faults): (World, bool) {
    if cfg.mode == NoPreservation then (w, false)
    else if faults.firstList then (w, true)
    else
      var (w1, errors) := RestoreAll(w, lists.first, cfg, faults);
      if errors > 0 || faults.internalList then (w1, true)
      else
        var (w2, errors') := RestoreAll(w1, lists.internal, cfg.(mode := Internal), faults);
        (w2, errors' > 0)
  }

  ghost predicate RestoreListings(w: World, lists: Listings, cfg: Config, faults: Faults) {
    && ToRestore(lists.first, w, cfg.namespace, cfg.mode)
    && ToRestore(lists.internal, RestoreAll(w, lists.first, cfg, faults).0, cfg.namespace, Internal)
  }

  // ----- Cleanup -----------------------------------------------------------------------------

  function CleanupSetting(cfg: Config, now: int, faults: Deletion.Faults): Deletion.Setting {
    Deletion.Setting(cfg.owner, [], now, None, faults)
  }

  /** Deletes the listed resources without waiting: (store, all gone, errors). */
  function CleanupAll(w: World, ids: seq<Identity>, setting: Deletion.Setting): (World, bool, nat)
    decreases |ids|
  {
    if ids == [] then (w, true, 0)
    else
      var (w1, outcome) := Deletion.DeleteObject(setting, w, ids[0]);
      var (w2, done, errors) := CleanupAll(w1, ids[1..], setting);
      match outcome
      case Gone => (w2, done, errors)
      case Waiting => (w2, false, errors)
      case _ => (w2, done, errors + 1)
  }

  function Cleanup(w: World, ids: seq<Identity>, cfg: Config, now: int, faults: Deletion.Faults, listFails: bool)
    : (World, bool, bool)
  {
    if listFails then (w, false, true)
    else
      var (w', completed, errors) := CleanupAll(w, ids, CleanupSetting(cfg, now, faults));
      (w', completed, errors > 0)
  }

  /** What the two listings of a cleanup give; a resource preserved in both ways comes twice. */
  ghost predicate ToCleanUp(ids: seq<Identity>, w: World, cfg: Config) {
    forall id :: id in ids <==>
      && id in w.objects && IsResource(id) && id.namespace == cfg.namespace
      && (Preserved(cfg.mode, w.objects[id]) || Preserved(Internal, w.objects[id]))
  }
}
