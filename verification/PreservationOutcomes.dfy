/**
 When a backup, a restore or a cleanup fails, for any failing calls, and what stops at the first failure. Said
 of the calls that fail, and of the labels and annotations of what is listed.
 */
module PreservationOutcomes {
  import opened Kube
  import opened Preservation
  import opened PreservationLaws
  import opened PreservationLabels
  import D = Deletion
  import DO = DeletionOutcomes

  /** Mode None does nothing. */
  lemma NoneDoesNothing(w: World, lists: Listings, cfg: Config, faults: Faults)
    requires cfg.mode == NoPreservation
    ensures Backup(w, lists, cfg, faults) == (w, false) && Restore(w, lists, cfg, faults) == (w, false)
  {
  }

  /** How the backup of a resource is named. */
  lemma BackupIsNamed(namespace: string, name: string, generation: string)
    ensures BackupId(Identity("v1", "ConfigMap", namespace, name), generation)
         == Identity("v1", "Secret", namespace, "configmap-" + name + "-" + generation)
    ensures BackupId(Identity("v1", "Secret", namespace, name), generation)
         == Identity("v1", "Secret", namespace, "secret-" + name + "-" + generation)
  {
    assert "configmap" + "-" == "configmap-" && "secret" + "-" == "secret-";
  }

  // ----- Backup ------------------------------------------------------------------------------

  /** The resource or its backup cannot be read, or the backup cannot be written. */
  predicate Unsaved(w: World, id: Identity, cfg: Config, faults: Faults) {
    var x := BackupId(id, cfg.generation);
    id !in w.objects || id in faults.unreadable || x in faults.unreadable || x in faults.unwritable
  }

  lemma {:induction false} BackupAllFailsIff(w: World, ids: seq<Identity>, cfg: Config, faults: Faults)
    ensures BackupAll(w, ids, cfg, faults).1 == 0 ==> forall id | id in ids && id in w.objects :: !Unsaved(w, id, cfg, faults)
    ensures (forall id | id in ids :: !Unsaved(w, id, cfg, faults)) ==> BackupAll(w, ids, cfg, faults).1 == 0
    decreases |ids|
  {
    if ids != [] {
      var w1 := BackupResource(w, ids[0], cfg, faults).0;
      assert ids[0] in ids && forall id :: id in ids <==> id == ids[0] || id in ids[1..];
      BackupAllFailsIff(w1, ids[1..], cfg, faults);
    }
  }

  /** A backup fails exactly if a listing fails or something that asks for a backup is not saved. */
  lemma BackupFailsIff(w: World, lists: Listings, cfg: Config, faults: Faults)
    requires PassOf(cfg, cfg) && Tidy(w, cfg) && BackupListings(w, lists, cfg, faults)
    ensures Backup(w, lists, cfg, faults).1 <==>
            faults.firstList || faults.internalList || exists id :: AskedIn(w, id, cfg) && Unsaved(w, id, cfg, faults)
  {
    var inner := cfg.(mode := Internal);
    var w1 := BackupAll(w, lists.first, cfg, faults).0;
    BackupAllFailsIff(w, lists.first, cfg, faults);
    BackupAllFailsIff(w1, lists.internal, inner, faults);
    forall id
      ensures AskedIn(w, id, cfg) <==> id in lists.first || id in lists.internal
      ensures id in lists.first ==> id in w.objects
      ensures id in lists.internal ==> id in w.objects && id in w1.objects
      ensures Unsaved(w1, id, inner, faults) && id in w.objects ==> Unsaved(w, id, cfg, faults)
      ensures Unsaved(w, id, cfg, faults) && id in w.objects ==> Unsaved(w1, id, inner, faults)
    {
      InternalWasThere(w, lists, cfg, faults, id);
      BackupAllWrites(w, lists.first, cfg, faults, id);
      if id in w.objects {
        SelectedIff(cfg.mode, w.objects[id]);
      }
    }
  }

  /** The second mode is begun only if the first reported nothing. */
  lemma BackupStops(w: World, lists: Listings, cfg: Config, faults: Faults)
    requires cfg.mode != NoPreservation
    ensures faults.firstList ==> Backup(w, lists, cfg, faults).0 == w
    ensures !faults.firstList && (faults.internalList || exists id | id in lists.first && id in w.objects :: Unsaved(w, id, cfg, faults)) ==>
              Backup(w, lists, cfg, faults).0 == BackupAll(w, lists.first, cfg, faults).0
  {
    BackupAllFailsIff(w, lists.first, cfg, faults);
  }

  // ----- Restore -----------------------------------------------------------------------------

  /** Marked as the operator's own. */
  predicate Own(b: Object) {
    || HasLabel(b, PreserveInternal, "cluster-instance-required-resource")
    || (PreservedInternalData in b.labels && b.labels[PreservedInternalData] != "")
  }

  predicate TakenInMode(b: Object, mode: string) {
    Preserve in b.annotations && b.annotations[Preserve] == mode
  }

  /** The instance's own backup, of this generation. */
  predicate Ours(b: Object, cfg: Config) {
    && (if OwnedBy in b.labels then b.labels[OwnedBy] else "") == cfg.owner
    && ReinstallGeneration in b.annotations && b.annotations[ReinstallGeneration] == cfg.generation
  }

  /** When a fetched Secret is passed over, when it is refused, and when it is restored. */
  lemma VerdictIff(b: Object, cfg: Config)
    requires Proper(cfg)
    ensures var noted := Own(b) || Preserve in b.annotations;
            var other := !Own(b) && cfg.mode == ClusterIdentity && !TakenInMode(b, "ClusterIdentity");
            && (Validate(b, cfg) == Refuse <==> !noted || (!other && !Ours(b, cfg)))
            && (Validate(b, cfg) == Skip <==> noted && other)
            && (Validate(b, cfg) == Proceed <==> noted && !other && Ours(b, cfg))
  {
  }

  /** The payload is a copy of a ConfigMap or a Secret. */
  predicate HoldsCopy(b: Object) {
    && b.body.Snapshot? && ResourceType in b.annotations
    && (b.annotations[ResourceType] == "ConfigMap" || b.annotations[ResourceType] == "Secret")
  }

  /** Where the copy goes: the kind is the one noted. */
  predicate GoesTo(b: Object, t: Identity) {
    && HoldsCopy(b)
    && t == Identity("v1", b.annotations[ResourceType], b.body.origin.namespace, b.body.origin.name)
  }

  /** A listed name that is not restored and not passed over. */
  ghost predicate Unrestored(w: World, listed: Identity, cfg: Config, faults: Faults) {
    var y := Fetched(listed);
    || y in faults.unreadable || y !in w.objects
    || Validate(w.objects[y], cfg) == Refuse
    || (Validate(w.objects[y], cfg) == Proceed &&
        (!HoldsCopy(w.objects[y])
         || exists t :: GoesTo(w.objects[y], t) && (t in faults.unreadable || t in faults.unwritable)))
  }

  lemma RestoreOneFailsIff(w: World, listed: Identity, cfg: Config, faults: Faults)
    ensures RestoreResource(w, listed, cfg, faults).1 <==> Unrestored(w, listed, cfg, faults)
    ensures RestoreResource(w, listed, cfg, faults).1 ==> RestoreResource(w, listed, cfg, faults).0 == w
  {
    var y := Fetched(listed);
    if y in w.objects && HoldsCopy(w.objects[y]) {
      var b := w.objects[y];
      var t := b.body.origin.(apiVersion := "v1", kind := b.annotations[ResourceType]);
      assert GoesTo(b, t);
    }
  }

  lemma {:induction false} RestoreAllFailsIffAny(w: World, ids: seq<Identity>, all: seq<Identity>, pass: Config, faults: Faults)
    requires NoneRestored(w, all) && forall x | x in ids :: x in all
    ensures var (w', errors) := RestoreAll(w, ids, pass, faults);
            && (errors == 0 <==> forall x | x in ids :: !Unrestored(w, x, pass, faults))
            && (forall x | x in all :: Same(w, w', Fetched(x)))
    decreases |ids|
  {
    if ids != [] {
      var w1 := RestoreResource(w, ids[0], pass, faults).0;
      assert ids[0] in ids && forall x :: x in ids <==> x == ids[0] || x in ids[1..];
      RestoreOneFailsIff(w, ids[0], pass, faults);
      forall x | x in all
        ensures Same(w, w1, Fetched(x))
      {
        assert Fetched(ids[0]) in w.objects ==> Target(w.objects[Fetched(ids[0])]) != Some(Fetched(x));
      }
      RestoreAllFailsIffAny(w1, ids[1..], all, pass, faults);
    }
  }

  /**
   A restore fails exactly if a listing fails or something listed is not restored and not passed over, for any
   failing calls; provided that no listed Secret is itself the original of a listed backup.
   */
  lemma RestoreFailsIffAny(w: World, lists: Listings, cfg: Config, faults: Faults)
    requires cfg.mode != NoPreservation && NoneRestored(w, lists.first + lists.internal)
    ensures Restore(w, lists, cfg, faults).1 <==>
            || faults.firstList || faults.internalList
            || (exists x | x in lists.first :: Unrestored(w, x, cfg, faults))
            || (exists x | x in lists.internal :: Unrestored(w, x, cfg.(mode := Internal), faults))
  {
    var all := lists.first + lists.internal;
    var inner := cfg.(mode := Internal);
    var w1 := RestoreAll(w, lists.first, cfg, faults).0;
    RestoreAllFailsIffAny(w, lists.first, all, cfg, faults);
    assert forall x | x in lists.internal :: x in all;
    assert NoneRestored(w1, all) by {
      forall x, y | x in all && y in all && Fetched(y) in w1.objects
        ensures Target(w1.objects[Fetched(y)]) != Some(Fetched(x))
      {
        assert Same(w, w1, Fetched(y));
      }
    }
    RestoreAllFailsIffAny(w1, lists.internal, all, inner, faults);
    forall x | x in lists.internal
      ensures Unrestored(w1, x, inner, faults) <==> Unrestored(w, x, inner, faults)
    {
      assert Same(w, w1, Fetched(x));
    }
  }

  /** The second mode is begun only if the first reported nothing. */
  lemma RestoreStops(w: World, lists: Listings, cfg: Config, faults: Faults)
    requires cfg.mode != NoPreservation && NoneRestored(w, lists.first)
    ensures faults.firstList ==> Restore(w, lists, cfg, faults).0 == w
    ensures !faults.firstList && (faults.internalList || exists x | x in lists.first :: Unrestored(w, x, cfg, faults)) ==>
              Restore(w, lists, cfg, faults).0 == RestoreAll(w, lists.first, cfg, faults).0
  {
    RestoreAllFailsIffAny(w, lists.first, lists.first, cfg, faults);
  }

  /**
   What a restored resource looks like: a live one gets the copy's data, labels and annotations and keeps the
   rest of itself; a missing one comes back as the copy. The time of the restore is noted.
   */
  lemma RestoredLooks(w: World, listed: Identity, cfg: Config, faults: Faults, t: Identity)
    requires Fetched(listed) in w.objects && !RestoreResource(w, listed, cfg, faults).1
    requires Validate(w.objects[Fetched(listed)], cfg) == Proceed && GoesTo(w.objects[Fetched(listed)], t)
    ensures var s, w' := w.objects[Fetched(listed)].body, RestoreResource(w, listed, cfg, faults).0;
            && t in w'.objects
            && var o := w'.objects[t];
               && o.labels == s.labels && RestoredAt in o.annotations && o.annotations[RestoredAt] == cfg.now
               && o.annotations - {RestoredAt} == s.annotations - {RestoredAt}
               && (t !in w.objects ==> o.body == s.saved && o.finalizers == s.finalizers && o.deletedAt.None?)
               && (t in w.objects ==> o.finalizers == w.objects[t].finalizers && o.deletedAt == w.objects[t].deletedAt)
               && (t in w.objects && w.objects[t].body.Plain? && s.saved.Plain? ==>
                     o.body.Plain? && o.body.data == s.saved.data && o.body.extra == w.objects[t].body.extra)
  {
  }

  // ----- Cleanup -----------------------------------------------------------------------------

  /** The object cannot be read, belongs to someone else, or cannot be deleted. */
  predicate Undeletable(w: World, setting: D.Setting, id: Identity) {
    || id in setting.faults.get
    || (id in w.objects && !DO.Has(w, setting.owner, id))
    || (DO.Has(w, setting.owner, id) && w.objects[id].deletedAt.None? && id in setting.faults.delete)
  }

  lemma {:induction false} CleanupAllFailsIff(w: World, ids: seq<Identity>, setting: D.Setting)
    requires setting.timeout.None?
    ensures CleanupAll(w, ids, setting).2 == 0 <==> forall id | id in ids :: !Undeletable(w, setting, id)
    decreases |ids|
  {
    if ids != [] {
      var w1 := D.DeleteObject(setting, w, ids[0]).0;
      DO.OutcomeIff(setting, w, ids[0]);
      assert ids[0] in ids && forall id :: id in ids <==> id == ids[0] || id in ids[1..];
      CleanupAllFailsIff(w1, ids[1..], setting);
      forall id | id != ids[0] || Undeletable(w, setting, id)
        ensures Undeletable(w1, setting, id) <==> Undeletable(w, setting, id)
      {
        DO.AttemptLeaves(setting, w, ids[0], id);
      }
      DO.AttemptLeaves(setting, w, ids[0], ids[0]);
    }
  }

  /** A cleanup fails exactly if a listing fails or something listed is not deleted; it never times out. */
  lemma CleanupFailsIffAny(w: World, ids: seq<Identity>, cfg: Config, now: int, faults: D.Faults, listFails: bool)
    ensures Cleanup(w, ids, cfg, now, faults, listFails).2 <==>
            listFails || exists id | id in ids :: Undeletable(w, D.Setting(cfg.owner, [], now, None, faults), id)
    ensures listFails ==> Cleanup(w, ids, cfg, now, faults, listFails).0 == w && !Cleanup(w, ids, cfg, now, faults, listFails).1
  {
    CleanupAllFailsIff(w, ids, CleanupSetting(cfg, now, faults));
  }
}
