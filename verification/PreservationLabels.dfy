/**
 Backup, restore and cleanup said of the labels and annotations that resources carry: which resources are
 backed up, what their backups look like, what a restore may write and what a cleanup takes away.
 */
module PreservationLabels {
  import opened Kube
  import opened Preservation
  import opened PreservationLaws
  import D = Deletion
  import DO = DeletionOutcomes

  predicate HasLabel(o: Object, key: Key, value: string) {
    key in o.labels && o.labels[key] == value
  }

  /** The preserve label asks for a backup in this mode: any value in mode All, one value in mode ClusterIdentity. */
  predicate AskedFirst(mode: Mode, o: Object) {
    || (mode == All && Preserve in o.labels)
    || (mode == ClusterIdentity && HasLabel(o, Preserve, "cluster-identity"))
  }

  /** The operator's own label asks for a backup in either mode. */
  predicate AskedInternally(o: Object) {
    HasLabel(o, PreserveInternal, "cluster-instance-required-resource")
  }

  predicate Asked(mode: Mode, o: Object) {
    AskedFirst(mode, o) || AskedInternally(o)
  }

  lemma SelectedIff(mode: Mode, o: Object)
    requires mode == All || mode == ClusterIdentity
    ensures Selected(mode, o) <==> AskedFirst(mode, o)
    ensures Selected(Internal, o) <==> AskedInternally(o)
  {
  }

  // ----- What is backed up -------------------------------------------------------------------

  /** A resource of the namespace that asks for it. */
  predicate AskedIn(w: World, id: Identity, cfg: Config) {
    id in w.objects && IsResource(id) && id.namespace == cfg.namespace && Asked(cfg.mode, w.objects[id])
  }

  lemma BackupTakesAsked(w: World, lists: Listings, cfg: Config, faults: Faults, id: Identity)
    requires PassOf(cfg, cfg) && Tidy(w, cfg) && BackupListings(w, lists, cfg, faults)
    requires !Backup(w, lists, cfg, faults).1
    requires AskedIn(w, id, cfg)
    ensures Held(Backup(w, lists, cfg, faults).0, id, Payload(w, id, cfg.generation), cfg)
  {
    SelectedIff(cfg.mode, w.objects[id]);
    BackupTakes(w, lists, cfg, cfg, faults, id);
  }

  /** What a backup does to an object that no listed resource has as its backup: nothing. */
  lemma {:induction false} BackupAllWrites(w: World, ids: seq<Identity>, pass: Config, faults: Faults, x: Identity)
    ensures var w' := BackupAll(w, ids, pass, faults).0;
            && ((forall id | id in ids :: BackupId(id, pass.generation) != x) ==> Same(w, w', x))
            && (x in w.objects ==> x in w'.objects && w'.objects[x].body == w.objects[x].body)
            && (x in w.objects ==> (Preserve in w'.objects[x].labels <==> Preserve in w.objects[x].labels)
                                   && (PreserveInternal in w'.objects[x].labels <==> PreserveInternal in w.objects[x].labels))
    decreases |ids|
  {
    if ids != [] {
      assert ids[0] in ids && forall id | id in ids[1..] :: id in ids;
      BackupAllWrites(BackupResource(w, ids[0], pass, faults).0, ids[1..], pass, faults, x);
    }
  }

  /** What the second listing has, the store had before the backup began, with the internal label. */
  lemma InternalWasThere(w: World, lists: Listings, cfg: Config, faults: Faults, id: Identity)
    requires PassOf(cfg, cfg) && Tidy(w, cfg) && BackupListings(w, lists, cfg, faults)
    ensures id in lists.internal <==> id in w.objects && IsResource(id) && id.namespace == cfg.namespace && AskedInternally(w.objects[id])
    ensures id in lists.internal ==> w.objects[id].body.Plain? && Same(w, BackupAll(w, lists.first, cfg, faults).0, id)
  {
    var w1 := BackupAll(w, lists.first, cfg, faults).0;
    BackupAllTidy(w, lists.first, cfg, faults);
    BackupAllWrites(w, lists.first, cfg, faults, id);
    if id in w1.objects && id.namespace == cfg.namespace {
      assert TidyObject(id, w1.objects[id], cfg);
    }
    if id in w.objects && id.namespace == cfg.namespace {
      assert TidyObject(id, w.objects[id], cfg);
    }
  }

  /** A backup writes backups of resources that ask for it, and nothing else; whatever fails. */
  lemma BackupWritesAskedOnly(w: World, lists: Listings, cfg: Config, faults: Faults, x: Identity)
    requires PassOf(cfg, cfg) && Tidy(w, cfg) && BackupListings(w, lists, cfg, faults)
    ensures var w' := Backup(w, lists, cfg, faults).0;
            Same(w, w', x) || exists id :: AskedIn(w, id, cfg) && x == BackupId(id, cfg.generation)
  {
    var inner := cfg.(mode := Internal);
    var w1 := BackupAll(w, lists.first, cfg, faults).0;
    BackupAllWrites(w, lists.first, cfg, faults, x);
    BackupAllWrites(w1, lists.internal, inner, faults, x);
    if id :| id in lists.first && BackupId(id, cfg.generation) == x {
      SelectedIff(cfg.mode, w.objects[id]);
      assert AskedIn(w, id, cfg);
    } else if id :| id in lists.internal && BackupId(id, cfg.generation) == x {
      InternalWasThere(w, lists, cfg, faults, id);
      assert AskedIn(w, id, cfg);
    }
  }

  /** So a resource that does not ask for it gets no backup. */
  lemma NoBackupUnasked(w: World, lists: Listings, cfg: Config, faults: Faults, id: Identity)
    requires PassOf(cfg, cfg) && Tidy(w, cfg) && BackupListings(w, lists, cfg, faults)
    requires IsResource(id) && !AskedIn(w, id, cfg)
    ensures Same(w, Backup(w, lists, cfg, faults).0, BackupId(id, cfg.generation))
  {
    BackupWritesAskedOnly(w, lists, cfg, faults, BackupId(id, cfg.generation));
    if other :| AskedIn(w, other, cfg) && BackupId(id, cfg.generation) == BackupId(other, cfg.generation) {
      BackupNamesDiffer(id, other, cfg.generation);
    }
  }

  /** Label by label, the round trip of everything that asks for a backup. */
  lemma AskedComesBack(w: World, first: Step, steps: seq<Step>, last: Step, cfg: Config, id: Identity)
    requires Tidy(w, cfg) && BackupId(id, cfg.generation) !in w.objects && AskedIn(w, id, cfg)
    requires first.BackupPass? && Legal(w, first, cfg) && !Backup(w, first.lists, first.pass, first.faults).1
    requires LegalRun(Next(w, first), steps, cfg)
    requires var v := Run(Next(w, first), steps);
             last.RestorePass? && Legal(v, last, cfg) && !Restore(v, last.lists, last.pass, last.faults).1
    ensures var o, end := w.objects[id], Next(Run(Next(w, first), steps), last).objects;
            && o.body.Plain?
            && id in end && end[id].body.Plain? && end[id].body.data == o.body.data
            && end[id].labels == o.labels
            && end[id].annotations - {RestoredAt} == o.annotations - {RestoredAt}
  {
    SelectedIff(cfg.mode, w.objects[id]);
    RoundTrip(w, first, steps, last, cfg, id);
  }

  // ----- What a backup looks like ------------------------------------------------------------

  /** Owned by the instance, and noted with the kind, the generation and the mode. */
  predicate Noted(b: Object, id: Identity, pass: Config) {
    && HasLabel(b, OwnedBy, pass.owner)
    && ResourceType in b.annotations && b.annotations[ResourceType] == id.kind
    && ReinstallGeneration in b.annotations && b.annotations[ReinstallGeneration] == pass.generation
    && (pass.mode == Internal ==> HasLabel(b, PreservedInternalData, pass.now))
    && (pass.mode == All ==> HasLabel(b, PreservedData, pass.now)
                             && Preserve in b.annotations && b.annotations[Preserve] == "All")
    && (pass.mode == ClusterIdentity ==> HasLabel(b, PreservedData, pass.now)
                                         && Preserve in b.annotations && b.annotations[Preserve] == "ClusterIdentity")
  }

  /** The backup of a resource that had none: marked as identity data if the resource is, and without finalizers. */
  lemma NewBackup(w: World, id: Identity, pass: Config, faults: Faults)
    requires Proper(pass) && !BackupResource(w, id, pass, faults).1 && BackupId(id, pass.generation) !in w.objects
    ensures var w', x := BackupResource(w, id, pass, faults).0, BackupId(id, pass.generation);
            && id in w.objects && x in w'.objects
            && var b := w'.objects[x];
               && Noted(b, id, pass) && b.body == SnapshotOf(id, w.objects[id])
               && !b.finalizers && b.deletedAt.None?
               && b.labels.Keys == {OwnedBy, if pass.mode == Internal then PreservedInternalData else PreservedData}
               && (ClusterIdentityData in b.annotations <==> HasLabel(w.objects[id], Preserve, "cluster-identity"))
  {
  }

  /** A backup that is there keeps everything but what a pass notes. */
  lemma OldBackup(w: World, id: Identity, pass: Config, faults: Faults)
    requires Proper(pass) && !BackupResource(w, id, pass, faults).1 && BackupId(id, pass.generation) in w.objects
    ensures var w', x := BackupResource(w, id, pass, faults).0, BackupId(id, pass.generation);
            var mark := if pass.mode == Internal then PreservedInternalData else PreservedData;
            var note := if pass.mode == Internal then PreserveInternal else Preserve;
            var was, b := w.objects[x], w'.objects[x];
            && Noted(b, id, pass)
            && b.body == was.body && b.finalizers == was.finalizers && b.deletedAt == was.deletedAt
            && b.labels - {OwnedBy, mark} == was.labels - {OwnedBy, mark}
            && b.annotations - {ResourceType, ReinstallGeneration, note} == was.annotations - {ResourceType, ReinstallGeneration, note}
  {
  }

  // ----- What a restore writes ---------------------------------------------------------------

  /** A Secret that a restore in this mode may take: owned, of this generation, and marked for the mode. */
  ghost predicate Takable(w: World, y: Identity, cfg: Config) {
    && y in w.objects && y.kind == "Secret" && y.namespace == cfg.namespace
    && var b := w.objects[y];
       && HasLabel(b, OwnedBy, cfg.owner)
       && ReinstallGeneration in b.annotations && b.annotations[ReinstallGeneration] == cfg.generation
       && (|| PreservedInternalData in b.labels
           || (PreservedData in b.labels && (cfg.mode == All || (Preserve in b.annotations && b.annotations[Preserve] == "ClusterIdentity"))))
  }

  lemma RestoreOneTakes(w: World, listed: Identity, pass: Config, faults: Faults, x: Identity)
    requires Tidy(w, pass) && Proper(pass) && listed.namespace == pass.namespace
    requires Fetched(listed) in w.objects ==> Preserved(pass.mode, w.objects[Fetched(listed)])
    ensures var w' := RestoreResource(w, listed, pass, faults).0;
            Same(w, w', x) || (Takable(w, Fetched(listed), pass) && w.objects[Fetched(listed)].body.Snapshot?
                               && w.objects[Fetched(listed)].body.origin == x)
  {
    RestoreOneEffect(w, listed, pass, faults);
  }

  lemma TakenStays(w: World, w': World, y: Identity, cfg: Config)
    requires Same(w, w', y) && Takable(w', y, cfg)
    ensures Takable(w, y, cfg)
  {
  }

  ghost predicate SecretsOnly(ids: seq<Identity>, namespace: string) {
    forall id | id in ids :: id.kind == "Secret" && id.namespace == namespace
  }

  /** The backup that `x` may be restored from. */
  ghost predicate TakenFor(w: World, x: Identity, y: Identity, cfg: Config) {
    Takable(w, y, cfg) && Genuine(y, w.objects[y], cfg) && w.objects[y].body.origin == x
  }

  lemma {:induction false} RestoreAllTakes(w: World, ids: seq<Identity>, pass: Config, cfg: Config, faults: Faults, x: Identity)
    requires PassOf(pass, cfg) && Tidy(w, pass) && SecretsOnly(ids, cfg.namespace)
    requires forall id | id in ids && id in w.objects && Genuine(id, w.objects[id], cfg) :: Preserved(pass.mode, w.objects[id])
    ensures var w' := RestoreAll(w, ids, pass, faults).0;
            && (Same(w, w', x) || exists y :: TakenFor(w, x, y, cfg))
            && (forall y | BackupNamed(y, cfg.generation) :: Same(w, w', y))
    decreases |ids|
  {
    if ids != [] {
      assert ids[0] in ids && forall id | id in ids[1..] :: id in ids;
      var w1 := RestoreResource(w, ids[0], pass, faults).0;
      RestoreOneTidy(w, ids[0], pass, faults);
      RestoreOneTaken(w, ids[0], pass, cfg, faults, x);
      forall id | BackupNamed(id, cfg.generation)
        ensures Same(w, w1, id)
      {
        RestoreKeepsBackups(w, ids[0], pass, faults, id);
      }
      forall id | id in ids[1..] && id in w1.objects && Genuine(id, w1.objects[id], cfg)
        ensures Preserved(pass.mode, w1.objects[id])
      {
        GenuineIsNamed(id, w1.objects[id], cfg);
        assert Same(w, w1, id);
      }
      RestoreAllTakes(w1, ids[1..], pass, cfg, faults, x);
      if y :| TakenFor(w1, x, y, cfg) {
        TakenBefore(w, w1, x, y, cfg);
      }
    }
  }

  lemma GenuineIsNamed(x: Identity, b: Object, cfg: Config)
    requires Genuine(x, b, cfg)
    ensures BackupNamed(x, cfg.generation)
  {
  }

  lemma TakenBefore(w: World, w1: World, x: Identity, y: Identity, cfg: Config)
    requires TakenFor(w1, x, y, cfg) && (BackupNamed(y, cfg.generation) ==> Same(w, w1, y))
    ensures TakenFor(w, x, y, cfg)
  {
    GenuineIsNamed(y, w1.objects[y], cfg);
  }

  lemma RestoreKeepsBackups(w: World, listed: Identity, pass: Config, faults: Faults, id: Identity)
    requires Tidy(w, pass) && Proper(pass) && listed.namespace == pass.namespace && BackupNamed(id, pass.generation)
    ensures Same(w, RestoreResource(w, listed, pass, faults).0, id)
  {
    RestoreOneEffect(w, listed, pass, faults);
  }

  lemma RestoreOneTaken(w: World, listed: Identity, pass: Config, cfg: Config, faults: Faults, x: Identity)
    requires PassOf(pass, cfg) && Tidy(w, pass) && listed.namespace == cfg.namespace && listed.kind == "Secret"
    requires listed in w.objects && Genuine(listed, w.objects[listed], cfg) ==> Preserved(pass.mode, w.objects[listed])
    ensures var w' := RestoreResource(w, listed, pass, faults).0;
            Same(w, w', x) || TakenFor(w, x, listed, cfg)
  {
    RestoreOneEffect(w, listed, pass, faults);
    assert Fetched(listed) == listed;
  }

  /**
   Whatever a restore changes is the original of a Secret that was there with the instance's label, the
   generation's note and the mark of a backup, taken in mode ClusterIdentity if that is the restore's.
   */
  lemma RestoreWritesTakenOnly(w: World, lists: Listings, cfg: Config, faults: Faults, x: Identity)
    requires PassOf(cfg, cfg) && Tidy(w, cfg) && RestoreListings(w, lists, cfg, faults)
    requires SecretsOnly(lists.first + lists.internal, cfg.namespace)
    ensures Same(w, Restore(w, lists, cfg, faults).0, x) || exists y :: TakenFor(w, x, y, cfg)
  {
    var inner := cfg.(mode := Internal);
    var w1 := RestoreAll(w, lists.first, cfg, faults).0;
    assert SecretsOnly(lists.first, cfg.namespace) && SecretsOnly(lists.internal, cfg.namespace) by {
      assert forall id | id in lists.first :: id in lists.first + lists.internal;
      assert forall id | id in lists.internal :: id in lists.first + lists.internal;
    }
    RestoreAllTakes(w, lists.first, cfg, cfg, faults, x);
    RestoreAllTidy(w, lists.first, cfg, faults);
    TidyForPass(w1, inner, cfg);
    InternalTakes(w, w1, lists.internal, inner, cfg, faults, x);
  }

  lemma InternalTakes(w: World, w1: World, ids: seq<Identity>, inner: Config, cfg: Config, faults: Faults, x: Identity)
    requires PassOf(inner, cfg) && Tidy(w1, inner) && SecretsOnly(ids, cfg.namespace)
    requires forall id | id in ids && id in w1.objects && Genuine(id, w1.objects[id], cfg) :: Preserved(inner.mode, w1.objects[id])
    requires Same(w, w1, x) || exists y :: TakenFor(w, x, y, cfg)
    requires forall y | BackupNamed(y, cfg.generation) :: Same(w, w1, y)
    ensures Same(w, RestoreAll(w1, ids, inner, faults).0, x) || exists y :: TakenFor(w, x, y, cfg)
  {
    RestoreAllTakes(w1, ids, inner, cfg, faults, x);
    if y :| TakenFor(w1, x, y, cfg) {
      TakenBefore(w, w1, x, y, cfg);
    }
  }

  // ----- What a cleanup takes away -----------------------------------------------------------

  predicate MarkedAsBackup(mode: Mode, o: Object) {
    PreservedInternalData in o.labels || ((mode == All || mode == ClusterIdentity) && PreservedData in o.labels)
  }

  lemma {:induction false} CleanupAsks(w: World, ids: seq<Identity>, setting: D.Setting, id: Identity)
    requires setting.timeout.None? && id in ids && DO.Has(w, setting.owner, id)
    requires id !in setting.faults.get && id !in setting.faults.delete
    ensures var w' := CleanupAll(w, ids, setting).0; id !in w'.objects || w'.objects[id].deletedAt.Some?
    ensures !CleanupAll(w, ids, setting).1
    decreases |ids|
  {
    var w1 := D.DeleteObject(setting, w, ids[0]).0;
    DO.OutcomeIff(setting, w, ids[0]);
    DO.AttemptLeaves(setting, w, ids[0], id);
    if ids[0] == id {
      StaysAsked(w1, ids[1..], setting, id);
    } else {
      CleanupAsks(w1, ids[1..], setting, id);
    }
  }

  lemma {:induction false} StaysAsked(w: World, ids: seq<Identity>, setting: D.Setting, id: Identity)
    requires id !in w.objects || w.objects[id].deletedAt.Some?
    ensures var w' := CleanupAll(w, ids, setting).0; id !in w'.objects || w'.objects[id].deletedAt.Some?
    decreases |ids|
  {
    if ids != [] {
      DO.AttemptLeaves(setting, w, ids[0], id);
      StaysAsked(D.DeleteObject(setting, w, ids[0]).0, ids[1..], setting, id);
    }
  }

  /** The object has to be waited for, or a call to delete it was sent. */
  predicate Awaited(w: World, setting: D.Setting, id: Identity) {
    && id !in setting.faults.get && DO.Has(w, setting.owner, id)
    && (w.objects[id].deletedAt.Some? || id !in setting.faults.delete)
  }

  /** The answer "completed" means that nothing on the list has to be waited for. */
  lemma {:induction false} CleanupDoneIff(w: World, ids: seq<Identity>, setting: D.Setting)
    requires setting.timeout.None?
    ensures CleanupAll(w, ids, setting).1 <==> forall id | id in ids :: !Awaited(w, setting, id)
    decreases |ids|
  {
    if ids != [] {
      var w1 := D.DeleteObject(setting, w, ids[0]).0;
      DO.OutcomeIff(setting, w, ids[0]);
      assert ids[0] in ids && forall id :: id in ids <==> id == ids[0] || id in ids[1..];
      if !Awaited(w, setting, ids[0]) {
        forall id
          ensures Awaited(w1, setting, id) <==> Awaited(w, setting, id)
        {
          DO.AttemptLeaves(setting, w, ids[0], id);
        }
        CleanupDoneIff(w1, ids[1..], setting);
      }
    }
  }

  lemma {:induction false} CleanupTouches(w: World, ids: seq<Identity>, setting: D.Setting, x: Identity)
    ensures var w' := CleanupAll(w, ids, setting).0; Same(w, w', x) || (x in ids && DO.Has(w, setting.owner, x))
    decreases |ids|
  {
    if ids != [] {
      DO.AttemptLeaves(setting, w, ids[0], x);
      CleanupTouches(D.DeleteObject(setting, w, ids[0]).0, ids[1..], setting, x);
    }
  }

  /**
   A cleanup without API faults asks every ConfigMap and Secret of the namespace to go that is marked as a
   backup and carries the instance's label, and touches nothing else; it is complete if there was none.
   */
  lemma CleanupTakesBackups(w: World, ids: seq<Identity>, cfg: Config, now: int, faults: D.Faults)
    requires ToCleanUp(ids, w, cfg) && faults == D.Faults({}, {})
    ensures var (w', completed, _) := Cleanup(w, ids, cfg, now, faults, false);
            && (forall x :: IsBackupOf(w, x, cfg) ==> x !in w'.objects || w'.objects[x].deletedAt.Some?)
            && (forall x :: !IsBackupOf(w, x, cfg) ==> Same(w, w', x))
            && (completed <==> forall x :: !IsBackupOf(w, x, cfg))
  {
    var setting := CleanupSetting(cfg, now, faults);
    forall x
      ensures IsBackupOf(w, x, cfg) ==> var w' := CleanupAll(w, ids, setting).0; x !in w'.objects || w'.objects[x].deletedAt.Some?
      ensures !IsBackupOf(w, x, cfg) ==> Same(w, CleanupAll(w, ids, setting).0, x)
    {
      BackupIsListed(w, ids, cfg, x);
      CleanupTouches(w, ids, setting, x);
      if IsBackupOf(w, x, cfg) {
        CleanupAsks(w, ids, setting, x);
      }
    }
    CleanupDoneIff(w, ids, setting);
    forall x {
      BackupIsListed(w, ids, cfg, x);
    }
    assert forall x | x in ids :: Awaited(w, setting, x) <==> IsBackupOf(w, x, cfg);
  }

  lemma BackupIsListed(w: World, ids: seq<Identity>, cfg: Config, x: Identity)
    requires ToCleanUp(ids, w, cfg)
    ensures x in ids && DO.Has(w, cfg.owner, x) <==> IsBackupOf(w, x, cfg)
  {
    assert x in ids <==> && x in w.objects && IsResource(x) && x.namespace == cfg.namespace
                         && (Preserved(cfg.mode, w.objects[x]) || Preserved(Internal, w.objects[x]));
  }

  /** A ConfigMap or Secret of the namespace that carries the label of a backup and that of the instance. */
  predicate IsBackupOf(w: World, x: Identity, cfg: Config) {
    && x in w.objects && x.apiVersion == "v1" && (x.kind == "ConfigMap" || x.kind == "Secret") && x.namespace == cfg.namespace
    && MarkedAsBackup(cfg.mode, w.objects[x]) && DO.Has(w, cfg.owner, x)
  }
}
