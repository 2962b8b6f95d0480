/** The operator's backup, restore and cleanup code, running against the API server in place. */
module PreservationHandlers {
  import opened Kube
  import opened Preservation
  import opened DeletionHandlers
  import D = Deletion

  class PreservationHandler {
    const api: ApiServer
    const deletion: DeletionHandler

    constructor (api: ApiServer, deletion: DeletionHandler)
      ensures this.api == api && this.deletion == deletion
    {
      this.api := api;
      this.deletion := deletion;
    }

    /** The names matching a mode's label: ConfigMaps and Secrets, in the order the server gives them. */
    method List(namespace: string, mode: Mode, backup: bool) returns (ids: seq<Identity>)
      ensures if backup then ToBackUp(ids, api.World(), namespace, mode) else ToRestore(ids, api.World(), namespace, mode)
    {
      ids := [];
      var rest := api.objects.Keys;
      while rest != {}
        invariant rest <= api.objects.Keys
        invariant forall i, j | 0 <= i < j < |ids| :: ids[i] != ids[j]
        invariant forall id | id in ids :: id !in rest
        invariant forall id :: id in ids <==>
                    && id in api.objects && id !in rest && IsResource(id) && id.namespace == namespace
                    && (if backup then Selected(mode, api.objects[id]) else Preserved(mode, api.objects[id]))
      {
        var id := AnyOf(rest);
        rest := rest - {id};
        var o := api.objects[id];
        if IsResource(id) && id.namespace == namespace && (if backup then Selected(mode, o) else Preserved(mode, o)) {
          ids := ids + [id];
        }
      }
    }

    method BackupResource(id: Identity, cfg: Config, faults: Faults) returns (failed: bool)
      modifies api`objects
      ensures (api.World(), failed) == Preservation.BackupResource(old(api.World()), id, cfg, faults)
    {
      if id in faults.unreadable || id !in api.objects {
        return true;
      }
      var resource := api.objects[id];
      var annotations: Labels := map[];
      if Lookup(resource.labels, Preserve) == CLUSTER_IDENTITY {
        annotations := annotations[ClusterIdentityData := ""];
      }
      var secret := Object(map[], annotations, SnapshotOf(id, resource), false, None);
      failed := CreateOrRelabel(BackupId(id, cfg.generation), secret, id.kind, cfg, faults);
    }

    /** CreateOrUpdate: an existing Secret replaces the one prepared before the mutate function runs. */
    method CreateOrRelabel(target: Identity, prepared: Object, kind: string, cfg: Config, faults: Faults) returns (failed: bool)
      modifies api`objects
      ensures failed <==> target in faults.unreadable || target in faults.unwritable
      ensures api.objects == if failed then old(api.objects) else
                old(api.objects)[target := Relabelled(if target in old(api.objects) then old(api.objects)[target] else prepared, kind, cfg)]
    {
      if target in faults.unreadable || target in faults.unwritable {
        return true;
      }
      var b := prepared;
      if target in api.objects {
        b := api.objects[target];
      }
      var labels, annotations := b.labels, b.annotations;
      if cfg.owner != "" {
        labels := labels[OwnedBy := cfg.owner];
      }
      annotations := annotations[ResourceType := kind];
      if cfg.generation != "" {
        annotations := annotations[ReinstallGeneration := cfg.generation];
      }
      var mark, note := PreservedData, Preserve;
      if cfg.mode == Internal {
        mark, note := PreservedInternalData, PreserveInternal;
      }
      labels := labels[mark := cfg.now];
      annotations := annotations[note := ModeName(cfg.mode)];
      api.objects := api.objects[target := b.(labels := labels, annotations := annotations)];
      return false;
    }

    method BackupResources(ids: seq<Identity>, cfg: Config, faults: Faults) returns (errors: nat)
      modifies api`objects
      ensures (api.World(), errors) == BackupAll(old(api.World()), ids, cfg, faults)
    {
      errors := 0;
      for n := 0 to |ids|
        invariant api.events == old(api.events)
        invariant var (w, e) := BackupAll(api.World(), ids[n..], cfg, faults);
                  BackupAll(old(api.World()), ids, cfg, faults) == (w, errors + e)
      {
        assert ids[n..][1..] == ids[n + 1..];
        var failed := BackupResource(ids[n], cfg, faults);
        if failed {
          errors := errors + 1;
        }
      }
    }

    method Backup(cfg: Config, faults: Faults) returns (failed: bool, ghost lists: Listings)
      modifies api`objects
      ensures (api.World(), failed) == Preservation.Backup(old(api.World()), lists, cfg, faults)
      ensures cfg.mode != NoPreservation && !failed ==>
                BackupListings(old(api.World()), lists, cfg, faults)
    {
      lists := Listings([], []);
      if cfg.mode == NoPreservation {
        return false, lists;
      }
      if faults.firstList {
        return true, lists;
      }
      var first := List(cfg.namespace, cfg.mode, true);
      var errors := BackupResources(first, cfg, faults);
      lists := Listings(first, []);
      if errors > 0 || faults.internalList {
        return true, lists;
      }
      var internal := List(cfg.namespace, Internal, true);
      errors := BackupResources(internal, cfg.(mode := Internal), faults);
      return errors > 0, Listings(first, internal);
    }

    method RestoreResource(listed: Identity, cfg: Config, faults: Faults) returns (failed: bool)
      modifies api`objects
      ensures (api.World(), failed) == Preservation.RestoreResource(old(api.World()), listed, cfg, faults)
    {
      var id := listed.(kind := "Secret");
      if id in faults.unreadable || id !in api.objects {
        return true;
      }
      var b := api.objects[id];
      var verdict := Validate(b, cfg);
      if verdict != Proceed {
        return verdict == Refuse;
      }
      if ResourceType !in b.annotations || !b.body.Snapshot? {
        return true;
      }
      var kind := b.annotations[ResourceType];
      if kind != "ConfigMap" && kind != "Secret" {
        return true;
      }
      var s := b.body;
      var target := s.origin.(apiVersion := "v1", kind := kind);
      if target in faults.unreadable || target in faults.unwritable {
        return true;
      }
      var restored := Object(s.labels, s.annotations, s.saved, s.finalizers, None);
      if target in api.objects {
        restored := api.objects[target];
      }
      restored := restored.(body := WithData(restored.body, s.saved));
      restored := restored.(annotations := s.annotations[RestoredAt := cfg.now], labels := s.labels);
      api.objects := api.objects[target := restored];
      return false;
    }

    method RestoreResources(ids: seq<Identity>, cfg: Config, faults: Faults) returns (errors: nat)
      modifies api`objects
      ensures (api.World(), errors) == RestoreAll(old(api.World()), ids, cfg, faults)
    {
      errors := 0;
      for n := 0 to |ids|
        invariant api.events == old(api.events)
        invariant var (w, e) := RestoreAll(api.World(), ids[n..], cfg, faults);
                  RestoreAll(old(api.World()), ids, cfg, faults) == (w, errors + e)
      {
        assert ids[n..][1..] == ids[n + 1..];
        var failed := RestoreResource(ids[n], cfg, faults);
        if failed {
          errors := errors + 1;
        }
      }
    }

    method Restore(cfg: Config, faults: Faults) returns (failed: bool, ghost lists: Listings)
      modifies api`objects
      ensures (api.World(), failed) == Preservation.Restore(old(api.World()), lists, cfg, faults)
      ensures cfg.mode != NoPreservation && !failed ==>
                RestoreListings(old(api.World()), lists, cfg, faults)
    {
      lists := Listings([], []);
      if cfg.mode == NoPreservation {
        return false, lists;
      }
      if faults.firstList {
        return true, lists;
      }
      var first := List(cfg.namespace, cfg.mode, false);
      var errors := RestoreResources(first, cfg, faults);
      lists := Listings(first, []);
      if errors > 0 || faults.internalList {
        return true, lists;
      }
      var internal := List(cfg.namespace, Internal, false);
      errors := RestoreResources(internal, cfg.(mode := Internal), faults);
      return errors > 0, Listings(first, internal);
    }

    method DeleteAll(ids: seq<Identity>, setting: D.Setting) returns (completed: bool, errors: nat)
      requires deletion.api == api
      modifies api
      ensures (api.World(), completed, errors) == CleanupAll(old(api.World()), ids, setting)
    {
      completed, errors := true, 0;
      for n := 0 to |ids|
        invariant var (w, c, e) := CleanupAll(api.World(), ids[n..], setting);
                  CleanupAll(old(api.World()), ids, setting) == (w, c && completed, e + errors)
      {
        assert ids[n..][1..] == ids[n + 1..];
        var deleted, err := deletion.DeleteObject(setting, ids[n]);
        if err.Some? {
          errors := errors + 1;
        } else if !deleted {
          completed := false;
        }
      }
    }

    /** Marks the preserved resources for deletion; it does not wait for them to go. */
    method Cleanup(cfg: Config, now: int, faults: D.Faults, listFails: bool)
      returns (completed: bool, failed: bool, ghost ids: seq<Identity>)
      requires deletion.api == api
      modifies api
      ensures (api.World(), completed, failed) ==
              Preservation.Cleanup(old(api.World()), ids, cfg, now, faults, listFails)
      ensures !listFails ==> ToCleanUp(ids, old(api.World()), cfg)
    {
      ids := [];
      if listFails {
        return false, true, ids;
      }
      var data := ListPreserved(cfg);
      ids := data;
      var errors;
      completed, errors := DeleteAll(data, CleanupSetting(cfg, now, faults));
      failed := errors > 0;
    }

    method ListPreserved(cfg: Config) returns (ids: seq<Identity>)
      ensures ToCleanUp(ids, api.World(), cfg)
    {
      var first: seq<Identity> := [];
      if cfg.mode != NoPreservation {
        first := List(cfg.namespace, cfg.mode, false);
      }
      var internal := List(cfg.namespace, Internal, false);
      ids := first + internal;
      assert forall id :: id in ids <==> id in first || id in internal;
    }
  }
}
