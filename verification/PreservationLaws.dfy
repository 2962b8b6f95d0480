/**
 The round trip of preserved data: what the first backup took is what every later restore puts back,
 whatever happens to the originals in between and however often either side runs.
 */
module PreservationLaws {
  import opened Kube
  import opened Preservation
  import Deletion

  // ----- Backup names ------------------------------------------------------------------------

  lemma AppendInjective(a: string, b: string, tail: string)
    requires a + tail == b + tail
    ensures a == b
  {
    assert |a| == |b|;
    assert a == (a + tail)[..|a|] && b == (b + tail)[..|b|];
  }

  /** For a fixed generation no two resources share a backup name. */
  lemma BackupNamesDiffer(a: Identity, b: Identity, generation: string)
    requires IsResource(a) && IsResource(b)
    requires BackupId(a, generation) == BackupId(b, generation)
    ensures a == b
  {
    var tail := "-" + generation;
    var na, nb := LowerKind(a.kind) + "-" + a.name, LowerKind(b.kind) + "-" + b.name;
    assert BackupName(a.kind, a.name, generation) == na + tail;
    assert BackupName(b.kind, b.name, generation) == nb + tail;
    AppendInjective(na, nb, tail);
    assert na[0] == LowerKind(a.kind)[0] && nb[0] == LowerKind(b.kind)[0];
    var k := |LowerKind(a.kind)| + 1;
    assert a.name == na[k..] && b.name == nb[k..];
  }

  /** `h` is some text, a hyphen and then `g`: something to look at before a generation is chosen. */
  predicate Extends(h: string, g: string) {
    |h| > |g| && h[|h| - |g| - 1..] == "-" + g
  }

  ghost predicate ShareABackup(g: string, h: string, namespace: string) {
    exists a, b :: IsResource(a) && IsResource(b) && a.namespace == b.namespace == namespace && BackupId(a, g) == BackupId(b, h)
  }

  lemma BackupNameEnd(kind: string, name: string, generation: string)
    ensures var n := BackupName(kind, name, generation);
            |n| > |generation| && n[|n| - |generation| - 1..] == "-" + generation && n[|n| - |generation|..] == generation
  {
    var front := LowerKind(kind) + "-" + name;
    assert BackupName(kind, name, generation) == front + ("-" + generation);
    assert BackupName(kind, name, generation) == (front + "-") + generation;
  }

  lemma SharedEnd(n: string, g: string, h: string)
    requires |g| < |h| < |n| && n[|n| - |g| - 1..] == "-" + g && n[|n| - |h| - 1..] == "-" + h
    ensures Extends(h, g)
  {
    var tail := n[|n| - |h| - 1..];
    assert h == tail[1..];
    assert h[|h| - |g| - 1..] == n[|n| - |g| - 1..];
  }

  lemma ExtendsCollides(g: string, h: string, namespace: string)
    requires Extends(h, g)
    ensures ShareABackup(g, h, namespace)
  {
    var x := h[..|h| - |g| - 1];
    var a := Identity("v1", "Secret", namespace, "n-" + x);
    var b := Identity("v1", "Secret", namespace, "n");
    assert h == x + ("-" + g);
    assert BackupName("Secret", a.name, g) == BackupName("Secret", b.name, h);
    assert BackupId(a, g) == BackupId(b, h);
  }

  lemma SharedExtends(a: Identity, b: Identity, g: string, h: string)
    requires g != h && |g| <= |h| && BackupId(a, g) == BackupId(b, h)
    ensures Extends(h, g)
  {
    var n := BackupName(a.kind, a.name, g);
    BackupNameEnd(a.kind, a.name, g);
    BackupNameEnd(b.kind, b.name, h);
    if |g| < |h| {
      SharedEnd(n, g, h);
    }
  }

  lemma SharedSwap(g: string, h: string, namespace: string)
    requires ShareABackup(g, h, namespace)
    ensures ShareABackup(h, g, namespace)
  {
    var a, b :| IsResource(a) && IsResource(b) && a.namespace == b.namespace == namespace && BackupId(a, g) == BackupId(b, h);
    assert BackupId(b, h) == BackupId(a, g);
  }

  /** Two generations can give two resources the same backup exactly when one ends in a hyphen and the other. */
  lemma BackupsSharedIff(g: string, h: string, namespace: string)
    requires g != h
    ensures ShareABackup(g, h, namespace) <==> Extends(g, h) || Extends(h, g)
  {
    if ShareABackup(g, h, namespace) {
      var a, b :| IsResource(a) && IsResource(b) && BackupId(a, g) == BackupId(b, h);
      if |g| <= |h| {
        SharedExtends(a, b, g, h);
      } else {
        SharedExtends(b, a, h, g);
      }
    }
    if Extends(h, g) {
      ExtendsCollides(g, h, namespace);
    }
    if Extends(g, h) {
      ExtendsCollides(h, g, namespace);
      SharedSwap(h, g, namespace);
    }
  }

  ghost predicate BackupNamed(x: Identity, generation: string) {
    exists id {:trigger BackupId(id, generation)} :: IsResource(id) && BackupId(id, generation) == x
  }

  // ----- Tidy stores -------------------------------------------------------------------------

  /** A backup of this request: its name, its labels and the kind of its payload fit together. */
  ghost predicate Genuine(x: Identity, b: Object, cfg: Config) {
    && b.body.Snapshot?
    && var id := b.body.origin;
       && IsResource(id) && id.namespace == x.namespace && x == BackupId(id, cfg.generation)
       && !BackupNamed(id, cfg.generation)
       && Lookup(b.annotations, ResourceType) == id.kind && ResourceType in b.annotations
       && Owner(b) == cfg.owner
       && b.body.saved.Plain?
  }

  ghost predicate OfThisRequest(b: Object, cfg: Config) {
    ReinstallGeneration in b.annotations && b.annotations[ReinstallGeneration] == cfg.generation
  }

  ghost predicate TidyObject(x: Identity, b: Object, cfg: Config) {
    && (b.body.Snapshot? && OfThisRequest(b, cfg) ==> Genuine(x, b, cfg))
    && (BackupNamed(x, cfg.generation) ==> b.body.Snapshot? && OfThisRequest(b, cfg))
    && (b.body.Snapshot? ==> Preserve !in b.labels && PreserveInternal !in b.labels)
  }

  /**
   In the instance's own namespace, the names of this request's backups are used for nothing else, and no
   backup carries a label that asks for a backup. Backups of other requests and other instances may be
   there, and other namespaces hold what they like.
   */
  ghost predicate Tidy(w: World, cfg: Config) {
    forall x | x in w.objects && x.namespace == cfg.namespace :: TidyObject(x, w.objects[x], cfg)
  }

  predicate Proper(cfg: Config) {
    cfg.owner != "" && cfg.generation != "" && cfg.mode != NoPreservation && cfg.now != ""
  }

  predicate SameRequest(a: Config, b: Config) {
    a.owner == b.owner && a.generation == b.generation && a.namespace == b.namespace
  }

  // ----- Backup ------------------------------------------------------------------------------

  /** This owner's and this request's backup of `id` holds `s`, and the next restore in this mode will take it. */
  ghost predicate Held(w: World, id: Identity, s: Body, cfg: Config) {
    var x := BackupId(id, cfg.generation);
    && IsResource(id) && id.namespace == cfg.namespace && s.Snapshot? && s.origin == id
    && x in w.objects
    && var b := w.objects[x];
       && b.body == s && OfThisRequest(b, cfg) && Owner(b) == cfg.owner
       && (|| Lookup(b.labels, PreservedInternalData) != ""
           || (PreservedData in b.labels && Preserve in b.annotations && b.annotations[Preserve] == ModeName(cfg.mode)))
  }

  /** Writing or refreshing one backup keeps the store tidy. */
  lemma BackupOneTidy(w: World, id: Identity, cfg: Config, faults: Faults)
    requires Tidy(w, cfg) && Proper(cfg)
    requires IsResource(id) && id.namespace == cfg.namespace
    requires id in w.objects ==> Selected(cfg.mode, w.objects[id])
    ensures var w' := BackupResource(w, id, cfg, faults).0;
            && Tidy(w', cfg)
            && (forall x | x in w.objects && w.objects[x].body.Plain? :: x in w'.objects && w'.objects[x] == w.objects[x])
            && (forall x | x !in w.objects && x in w'.objects :: w'.objects[x].body.Snapshot?)
  {
    var (w', failed) := BackupResource(w, id, cfg, faults);
    if !failed {
      var x := BackupId(id, cfg.generation);
      assert TidyObject(id, w.objects[id], cfg);
      assert BackupNamed(x, cfg.generation);
      var b := w'.objects[x];
      if x in w.objects {
        assert TidyObject(x, w.objects[x], cfg);
        BackupNamesDiffer(id, w.objects[x].body.origin, cfg.generation);
      }
      assert Genuine(x, b, cfg);
      assert TidyObject(x, b, cfg);
      forall y | y in w'.objects && y.namespace == cfg.namespace
        ensures TidyObject(y, w'.objects[y], cfg)
      {
        if y != x {
          assert TidyObject(y, w.objects[y], cfg);
        }
      }
    }
  }

  /** Resources that are there and carry the mode's label; in a tidy store none of them is a snapshot. */
  ghost predicate AllSelected(w: World, ids: seq<Identity>, cfg: Config) {
    forall id | id in ids :: IsResource(id) && id.namespace == cfg.namespace && id in w.objects && Selected(cfg.mode, w.objects[id])
  }

  lemma SelectedIsPlain(w: World, id: Identity, cfg: Config)
    requires Tidy(w, cfg) && id in w.objects && id.namespace == cfg.namespace && Selected(cfg.mode, w.objects[id])
    ensures w.objects[id].body.Plain?
  {
    assert TidyObject(id, w.objects[id], cfg);
  }

  lemma StillSelected(w: World, ids: seq<Identity>, cfg: Config, faults: Faults)
    requires Tidy(w, cfg) && Proper(cfg) && ids != [] && AllSelected(w, ids, cfg)
    ensures var w' := BackupResource(w, ids[0], cfg, faults).0;
            Tidy(w', cfg) && AllSelected(w', ids[1..], cfg)
  {
    assert ids[0] in ids;
    BackupOneTidy(w, ids[0], cfg, faults);
    forall id | id in ids[1..]
      ensures id in ids && w.objects[id].body.Plain?
    {
      assert id in ids;
      SelectedIsPlain(w, id, cfg);
    }
  }

  lemma {:induction false} BackupAllTidy(w: World, ids: seq<Identity>, cfg: Config, faults: Faults)
    requires Tidy(w, cfg) && Proper(cfg) && AllSelected(w, ids, cfg)
    ensures var w' := BackupAll(w, ids, cfg, faults).0;
            && Tidy(w', cfg)
            && (forall x | x in w.objects && w.objects[x].body.Plain? :: x in w'.objects && w'.objects[x] == w.objects[x])
            && (forall x | x !in w.objects && x in w'.objects :: w'.objects[x].body.Snapshot?)
    decreases |ids|
  {
    if ids != [] {
      assert ids[0] in ids;
      BackupOneTidy(w, ids[0], cfg, faults);
      StillSelected(w, ids, cfg, faults);
      BackupAllTidy(BackupResource(w, ids[0], cfg, faults).0, ids[1..], cfg, faults);
    }
  }

  /** A pass of the same request, in the same mode or in the internal one. */
  predicate PassOf(pass: Config, cfg: Config) {
    && SameRequest(pass, cfg) && Proper(pass) && Proper(cfg)
    && cfg.mode != Internal && (pass.mode == cfg.mode || pass.mode == Internal)
  }

  lemma TidyForPass(w: World, pass: Config, cfg: Config)
    requires SameRequest(pass, cfg)
    ensures Tidy(w, cfg) <==> Tidy(w, pass)
  {
    forall x | x in w.objects && x.namespace == cfg.namespace
      ensures Genuine(x, w.objects[x], cfg) <==> Genuine(x, w.objects[x], pass)
      ensures TidyObject(x, w.objects[x], cfg) <==> TidyObject(x, w.objects[x], pass)
    {
    }
  }

  /** Backing up anything again never touches a payload already taken. */
  lemma BackupOneKeepsHeld(w: World, other: Identity, pass: Config, cfg: Config, faults: Faults, id: Identity, s: Body)
    requires PassOf(pass, cfg) && Held(w, id, s, cfg) && IsResource(other)
    ensures Held(BackupResource(w, other, pass, faults).0, id, s, cfg)
  {
    var x := BackupId(id, cfg.generation);
    if BackupId(other, cfg.generation) == x {
      BackupNamesDiffer(other, id, cfg.generation);
    }
  }

  lemma {:induction false} BackupAllKeepsHeld(w: World, ids: seq<Identity>, pass: Config, cfg: Config, faults: Faults, id: Identity, s: Body)
    requires PassOf(pass, cfg) && Held(w, id, s, cfg) && forall other | other in ids :: IsResource(other)
    ensures Held(BackupAll(w, ids, pass, faults).0, id, s, cfg)
    decreases |ids|
  {
    if ids != [] {
      assert ids[0] in ids;
      BackupOneKeepsHeld(w, ids[0], pass, cfg, faults, id, s);
      BackupAllKeepsHeld(BackupResource(w, ids[0], pass, faults).0, ids[1..], pass, cfg, faults, id, s);
    }
  }

  /** The snapshot a backup of `id` has to hold: the one already there, or the one to be taken. */
  ghost function Payload(w: World, id: Identity, generation: string): Body
    requires id in w.objects
  {
    var x := BackupId(id, generation);
    if x in w.objects then w.objects[x].body else SnapshotOf(id, w.objects[id])
  }

  lemma BackupOneHolds(w: World, pass: Config, cfg: Config, faults: Faults, id: Identity)
    requires PassOf(pass, cfg) && Tidy(w, pass) && IsResource(id) && id.namespace == cfg.namespace
    requires id in w.objects && Selected(pass.mode, w.objects[id])
    requires !BackupResource(w, id, pass, faults).1
    ensures Held(BackupResource(w, id, pass, faults).0, id, Payload(w, id, cfg.generation), cfg)
  {
    var x := BackupId(id, cfg.generation);
    if x in w.objects {
      assert BackupNamed(x, cfg.generation) && TidyObject(x, w.objects[x], pass);
      BackupNamesDiffer(id, w.objects[x].body.origin, cfg.generation);
    }
  }

  /** A pass without errors holds the first payload of everything it listed. */
  lemma {:induction false} BackupAllHolds(w: World, ids: seq<Identity>, pass: Config, cfg: Config, faults: Faults, id: Identity)
    requires PassOf(pass, cfg) && Tidy(w, pass) && AllSelected(w, ids, pass)
    requires forall other | other in ids :: other.namespace == cfg.namespace
    requires id in ids && BackupAll(w, ids, pass, faults).1 == 0
    ensures id in w.objects
    ensures Held(BackupAll(w, ids, pass, faults).0, id, Payload(w, id, cfg.generation), cfg)
    decreases |ids|
  {
    assert ids[0] in ids;
    var (w1, failed) := BackupResource(w, ids[0], pass, faults);
    StillSelected(w, ids, pass, faults);
    if ids[0] == id {
      BackupOneHolds(w, pass, cfg, faults, id);
      BackupAllKeepsHeld(w1, ids[1..], pass, cfg, faults, id, Payload(w, id, cfg.generation));
    } else {
      BackupOneTidy(w, ids[0], pass, faults);
      SelectedIsPlain(w, id, pass);
      if BackupId(ids[0], cfg.generation) == BackupId(id, cfg.generation) {
        BackupNamesDiffer(ids[0], id, cfg.generation);
      }
      BackupAllHolds(w1, ids[1..], pass, cfg, faults, id);
    }
  }

  // ----- Restore -----------------------------------------------------------------------------

  /** The object carries the snapshot's data, labels and annotations, and the mark of a restore. */
  ghost predicate Restored(w: World, id: Identity, s: Body)
    requires s.Snapshot? && s.saved.Plain?
  {
    && id in w.objects
    && var o := w.objects[id];
       && o.body.Plain? && o.body.data == s.saved.data
       && o.labels == s.labels
       && RestoredAt in o.annotations
       && o.annotations - {RestoredAt} == s.annotations - {RestoredAt}
  }

  /** A restore writes, if anything, one plain object that is no backup of this request. */
  lemma RestoreOneEffect(w: World, listed: Identity, pass: Config, faults: Faults)
    requires Tidy(w, pass) && Proper(pass) && listed.namespace == pass.namespace
    ensures var (w', failed) := RestoreResource(w, listed, pass, faults);
            var x := listed.(kind := "Secret");
            || w' == w
            || (&& x in w.objects && w.objects[x].body.Snapshot?
                && OfThisRequest(w.objects[x], pass) && Genuine(x, w.objects[x], pass)
                && var s := w.objects[x].body;
                   && w' == Put(w, s.origin, RestoredObject(w, s.origin, s, pass))
                   && s.saved.Plain?
                   && Restored(w', s.origin, s))
  {
    var x := listed.(kind := "Secret");
    if x in w.objects {
      assert TidyObject(x, w.objects[x], pass);
      var b := w.objects[x];
      if Validate(b, pass) == Proceed && Usable(b) {
        assert Genuine(x, b, pass) && OfThisRequest(b, pass);
        assert b.body.origin.(apiVersion := "v1", kind := b.annotations[ResourceType]) == b.body.origin;
      }
    }
  }

  lemma RestoreOneTidy(w: World, listed: Identity, pass: Config, faults: Faults)
    requires Tidy(w, pass) && Proper(pass) && listed.namespace == pass.namespace
    ensures var w' := RestoreResource(w, listed, pass, faults).0;
            && Tidy(w', pass)
            && (forall x | x in w.objects && BackupNamed(x, pass.generation) :: x in w'.objects && w'.objects[x] == w.objects[x])
  {
    RestoreOneEffect(w, listed, pass, faults);
    var w' := RestoreResource(w, listed, pass, faults).0;
    forall x | x in w'.objects && x.namespace == pass.namespace
      ensures TidyObject(x, w'.objects[x], pass)
    {
      if x in w.objects {
        assert TidyObject(x, w.objects[x], pass);
      }
    }
  }

  ghost predicate InNamespace(ids: seq<Identity>, namespace: string) {
    forall id | id in ids :: id.namespace == namespace
  }

  /** A missing original came back whole. */
  ghost predicate Whole(w: World, id: Identity, s: Body)
    requires s.Snapshot?
  {
    id in w.objects && w.objects[id].body == s.saved && w.objects[id].finalizers == s.finalizers
    && w.objects[id].deletedAt.None?
  }

  lemma RestoreOneKeeps(w: World, listed: Identity, pass: Config, cfg: Config, faults: Faults, id: Identity, s: Body)
    requires PassOf(pass, cfg) && Tidy(w, pass) && Held(w, id, s, cfg) && listed.namespace == cfg.namespace
    ensures var w' := RestoreResource(w, listed, pass, faults).0;
            && Held(w', id, s, cfg)
            && s.saved.Plain?
            && (Restored(w, id, s) ==> Restored(w', id, s))
            && (Whole(w, id, s) ==> Whole(w', id, s))
            && (id !in w.objects && id in w'.objects ==> Whole(w', id, s) && Restored(w', id, s))
  {
    var x := BackupId(id, cfg.generation);
    assert TidyObject(x, w.objects[x], pass);
    RestoreOneEffect(w, listed, pass, faults);
    var y := listed.(kind := "Secret");
    if y in w.objects && Genuine(y, w.objects[y], pass) && w.objects[y].body.origin == id {
      assert y == x;
    }
  }

  lemma RestoreOneRestores(w: World, pass: Config, cfg: Config, faults: Faults, id: Identity, s: Body)
    requires PassOf(pass, cfg) && Tidy(w, pass) && Held(w, id, s, cfg)
    requires !RestoreResource(w, BackupId(id, cfg.generation), pass, faults).1
    ensures s.saved.Plain?
    ensures Restored(RestoreResource(w, BackupId(id, cfg.generation), pass, faults).0, id, s)
  {
    var x := BackupId(id, cfg.generation);
    assert TidyObject(x, w.objects[x], pass);
    assert Validate(w.objects[x], pass) == Proceed;
  }

  lemma {:induction false} RestoreAllKeeps(w: World, ids: seq<Identity>, pass: Config, cfg: Config, faults: Faults, id: Identity, s: Body)
    requires PassOf(pass, cfg) && Tidy(w, pass) && Held(w, id, s, cfg) && InNamespace(ids, cfg.namespace)
    ensures var w' := RestoreAll(w, ids, pass, faults).0;
            && Tidy(w', pass) && Held(w', id, s, cfg)
            && s.saved.Plain?
            && (Restored(w, id, s) ==> Restored(w', id, s))
            && (Whole(w, id, s) ==> Whole(w', id, s))
            && (id !in w.objects && id in w'.objects ==> Whole(w', id, s) && Restored(w', id, s))
    decreases |ids|
  {
    if ids == [] {
      assert TidyObject(BackupId(id, cfg.generation), w.objects[BackupId(id, cfg.generation)], pass);
    } else {
      assert ids[0] in ids;
      RestoreOneTidy(w, ids[0], pass, faults);
      RestoreOneKeeps(w, ids[0], pass, cfg, faults, id, s);
      RestoreAllKeeps(RestoreResource(w, ids[0], pass, faults).0, ids[1..], pass, cfg, faults, id, s);
    }
  }

  lemma {:induction false} RestoreAllRestores(w: World, ids: seq<Identity>, pass: Config, cfg: Config, faults: Faults, id: Identity, s: Body)
    requires PassOf(pass, cfg) && Tidy(w, pass) && Held(w, id, s, cfg) && InNamespace(ids, cfg.namespace)
    requires BackupId(id, cfg.generation) in ids && RestoreAll(w, ids, pass, faults).1 == 0
    ensures s.saved.Plain?
    ensures Restored(RestoreAll(w, ids, pass, faults).0, id, s)
    decreases |ids|
  {
    var w1 := RestoreResource(w, ids[0], pass, faults).0;
    assert ids[0] in ids;
    RestoreOneTidy(w, ids[0], pass, faults);
    RestoreOneKeeps(w, ids[0], pass, cfg, faults, id, s);
    if ids[0] == BackupId(id, cfg.generation) {
      RestoreOneRestores(w, pass, cfg, faults, id, s);
      RestoreAllKeeps(w1, ids[1..], pass, cfg, faults, id, s);
    } else {
      RestoreAllRestores(w1, ids[1..], pass, cfg, faults, id, s);
    }
  }

  lemma HeldIsListed(w: World, lists: Listings, pass: Config, cfg: Config, faults: Faults, id: Identity, s: Body)
    requires PassOf(pass, cfg) && pass.mode == cfg.mode && Tidy(w, cfg) && Held(w, id, s, cfg)
    requires RestoreListings(w, lists, pass, faults)
    ensures BackupId(id, cfg.generation) in lists.first || BackupId(id, cfg.generation) in lists.internal
  {
    var x := BackupId(id, cfg.generation);
    if PreservedData !in w.objects[x].labels {
      TidyForPass(w, pass, cfg);
      assert BackupNamed(x, cfg.generation);
      RestoreAllSpares(w, lists.first, pass, faults, x);
      assert TidyObject(x, w.objects[x], cfg);
    }
  }

  /** A restore that reports no error has put back every held snapshot, and the whole of what was gone. */
  lemma RestorePutsBack(w: World, lists: Listings, pass: Config, cfg: Config, faults: Faults, id: Identity, s: Body)
    requires PassOf(pass, cfg) && pass.mode == cfg.mode && Tidy(w, cfg) && Held(w, id, s, cfg)
    requires RestoreListings(w, lists, pass, faults)
    requires !Restore(w, lists, pass, faults).1
    ensures var w' := Restore(w, lists, pass, faults).0;
            s.saved.Plain? && Restored(w', id, s) && (id !in w.objects ==> Whole(w', id, s))
  {
    var inner := pass.(mode := Internal);
    var w1 := RestoreAll(w, lists.first, pass, faults).0;
    TidyForPass(w, pass, cfg);
    RestoreAllKeeps(w, lists.first, pass, cfg, faults, id, s);
    TidyForPass(w1, inner, pass);
    RestoreAllKeeps(w1, lists.internal, inner, cfg, faults, id, s);
    HeldIsListed(w, lists, pass, cfg, faults, id, s);
    if BackupId(id, cfg.generation) in lists.first {
      RestoreAllRestores(w, lists.first, pass, cfg, faults, id, s);
    } else {
      RestoreAllRestores(w1, lists.internal, inner, cfg, faults, id, s);
    }
  }

  lemma {:induction false} RestoreAllSpares(w: World, ids: seq<Identity>, pass: Config, faults: Faults, x: Identity)
    requires Tidy(w, pass) && Proper(pass) && InNamespace(ids, pass.namespace)
    requires x in w.objects && BackupNamed(x, pass.generation)
    ensures var w' := RestoreAll(w, ids, pass, faults).0; x in w'.objects && w'.objects[x] == w.objects[x]
    decreases |ids|
  {
    if ids != [] {
      assert ids[0] in ids;
      RestoreOneTidy(w, ids[0], pass, faults);
      RestoreAllSpares(RestoreResource(w, ids[0], pass, faults).0, ids[1..], pass, faults, x);
    }
  }

  // ----- Runs --------------------------------------------------------------------------------

  /** A step of a run: a pass of either kind, with any faults, or a change of the store by others. */
  datatype Step =
    | BackupPass(pass: Config, lists: Listings, faults: Faults)
    | RestorePass(pass: Config, lists: Listings, faults: Faults)
    | Environment(objects: map<Identity, Object>)

  function Next(w: World, step: Step): World {
    match step
    case BackupPass(pass, lists, faults) => Backup(w, lists, pass, faults).0
    case RestorePass(pass, lists, faults) => Restore(w, lists, pass, faults).0
    case Environment(objects) => w.(objects := objects)
  }

  /**
   Others may do anything in other namespaces. In this one they may create, change and delete anything but
   the backups of this request, and take backups of their own.
   */
  ghost predicate Elsewhere(w: World, objects: map<Identity, Object>, cfg: Config) {
    forall x: Identity | && x.namespace == cfg.namespace
               && ((x in w.objects <==> x !in objects) || (x in objects && objects[x] != w.objects[x])) ::
      !BackupNamed(x, cfg.generation) && (x in objects ==> TidyObject(x, objects[x], cfg))
  }

  ghost predicate Legal(w: World, step: Step, cfg: Config) {
    match step
    case BackupPass(pass, lists, faults) =>
      PassOf(pass, cfg) && pass.mode == cfg.mode && BackupListings(w, lists, pass, faults)
    case RestorePass(pass, lists, faults) =>
      PassOf(pass, cfg) && pass.mode == cfg.mode && RestoreListings(w, lists, pass, faults)
    case Environment(objects) => Elsewhere(w, objects, cfg)
  }

  ghost predicate LegalRun(w: World, steps: seq<Step>, cfg: Config)
    decreases |steps|
  {
    steps == [] || (Legal(w, steps[0], cfg) && LegalRun(Next(w, steps[0]), steps[1..], cfg))
  }

  function Run(w: World, steps: seq<Step>): World
    decreases |steps|
  {
    if steps == [] then w else Run(Next(w, steps[0]), steps[1..])
  }

  lemma BackupStep(w: World, lists: Listings, pass: Config, cfg: Config, faults: Faults)
    requires PassOf(pass, cfg) && pass.mode == cfg.mode && Tidy(w, cfg) && BackupListings(w, lists, pass, faults)
    ensures Tidy(Backup(w, lists, pass, faults).0, cfg)
  {
    TidyForPass(w, pass, cfg);
    BackupAllTidy(w, lists.first, pass, faults);
    var w1 := BackupAll(w, lists.first, pass, faults).0;
    var inner := pass.(mode := Internal);
    TidyForPass(w1, pass, cfg);
    TidyForPass(w1, inner, pass);
    BackupAllTidy(w1, lists.internal, inner, faults);
    TidyForPass(BackupAll(w1, lists.internal, inner, faults).0, inner, cfg);
  }

  lemma BackupStepHeld(w: World, lists: Listings, pass: Config, cfg: Config, faults: Faults, id: Identity, s: Body)
    requires PassOf(pass, cfg) && pass.mode == cfg.mode && BackupListings(w, lists, pass, faults)
    requires Held(w, id, s, cfg)
    ensures Held(Backup(w, lists, pass, faults).0, id, s, cfg)
  {
    BackupAllKeepsHeld(w, lists.first, pass, cfg, faults, id, s);
    BackupAllKeepsHeld(BackupAll(w, lists.first, pass, faults).0, lists.internal, pass.(mode := Internal), cfg, faults, id, s);
  }

  lemma RestoreStep(w: World, lists: Listings, pass: Config, cfg: Config, faults: Faults)
    requires PassOf(pass, cfg) && pass.mode == cfg.mode && Tidy(w, cfg) && RestoreListings(w, lists, pass, faults)
    ensures Tidy(Restore(w, lists, pass, faults).0, cfg)
  {
    TidyForPass(w, pass, cfg);
    RestoreAllTidy(w, lists.first, pass, faults);
    var w1 := RestoreAll(w, lists.first, pass, faults).0;
    var inner := pass.(mode := Internal);
    TidyForPass(w1, pass, cfg);
    TidyForPass(w1, inner, pass);
    RestoreAllTidy(w1, lists.internal, inner, faults);
    TidyForPass(RestoreAll(w1, lists.internal, inner, faults).0, inner, cfg);
  }

  lemma {:induction false} RestoreAllTidy(w: World, ids: seq<Identity>, pass: Config, faults: Faults)
    requires Tidy(w, pass) && Proper(pass) && InNamespace(ids, pass.namespace)
    ensures Tidy(RestoreAll(w, ids, pass, faults).0, pass)
    decreases |ids|
  {
    if ids != [] {
      assert ids[0] in ids;
      RestoreOneTidy(w, ids[0], pass, faults);
      RestoreAllTidy(RestoreResource(w, ids[0], pass, faults).0, ids[1..], pass, faults);
    }
  }

  lemma RestoreStepHeld(w: World, lists: Listings, pass: Config, cfg: Config, faults: Faults, id: Identity, s: Body)
    requires PassOf(pass, cfg) && pass.mode == cfg.mode && Tidy(w, cfg) && Held(w, id, s, cfg)
    requires RestoreListings(w, lists, pass, faults)
    ensures Held(Restore(w, lists, pass, faults).0, id, s, cfg)
  {
    TidyForPass(w, pass, cfg);
    var inner := pass.(mode := Internal);
    RestoreAllKeeps(w, lists.first, pass, cfg, faults, id, s);
    var w1 := RestoreAll(w, lists.first, pass, faults).0;
    TidyForPass(w1, inner, pass);
    RestoreAllKeeps(w1, lists.internal, inner, cfg, faults, id, s);
  }

  lemma NextKeeps(w: World, step: Step, cfg: Config, id: Identity, s: Body)
    requires Tidy(w, cfg) && Legal(w, step, cfg) && Held(w, id, s, cfg)
    ensures Tidy(Next(w, step), cfg) && Held(Next(w, step), id, s, cfg)
  {
    match step
    case BackupPass(pass, lists, faults) =>
      BackupStep(w, lists, pass, cfg, faults);
      BackupStepHeld(w, lists, pass, cfg, faults, id, s);
    case RestorePass(pass, lists, faults) =>
      RestoreStep(w, lists, pass, cfg, faults);
      RestoreStepHeld(w, lists, pass, cfg, faults, id, s);
    case Environment(objects) =>
      var x := BackupId(id, cfg.generation);
      assert BackupNamed(x, cfg.generation);
      forall y | y in objects && y.namespace == cfg.namespace
        ensures TidyObject(y, objects[y], cfg)
      {
        if y in w.objects {
          assert TidyObject(y, w.objects[y], cfg);
        }
      }
  }

  lemma {:induction false} RunKeeps(w: World, steps: seq<Step>, cfg: Config, id: Identity, s: Body)
    requires Tidy(w, cfg) && LegalRun(w, steps, cfg) && Held(w, id, s, cfg)
    ensures Tidy(Run(w, steps), cfg) && Held(Run(w, steps), id, s, cfg)
    decreases |steps|
  {
    if steps != [] {
      NextKeeps(w, steps[0], cfg, id, s);
      RunKeeps(Next(w, steps[0]), steps[1..], cfg, id, s);
    }
  }

  /** A backup that reports no error holds a snapshot of everything it selected, taken now or earlier. */
  lemma BackupTakes(w: World, lists: Listings, pass: Config, cfg: Config, faults: Faults, id: Identity)
    requires PassOf(pass, cfg) && pass.mode == cfg.mode && Tidy(w, cfg) && BackupListings(w, lists, pass, faults)
    requires !Backup(w, lists, pass, faults).1
    requires id in w.objects && IsResource(id) && id.namespace == cfg.namespace
    requires Selected(cfg.mode, w.objects[id]) || Selected(Internal, w.objects[id])
    ensures Held(Backup(w, lists, pass, faults).0, id, Payload(w, id, cfg.generation), cfg)
  {
    var inner := pass.(mode := Internal);
    var w1 := BackupAll(w, lists.first, pass, faults).0;
    TidyForPass(w, pass, cfg);
    TidyForPass(w, inner, cfg);
    BackupAllTidy(w, lists.first, pass, faults);
    TidyForPass(w1, inner, pass);
    if id in lists.first {
      BackupAllHolds(w, lists.first, pass, cfg, faults, id);
      BackupAllKeepsHeld(w1, lists.internal, inner, cfg, faults, id, Payload(w, id, cfg.generation));
    } else {
      SelectedIsPlain(w, id, inner);
      BackupAllElsewhere(w, lists.first, pass, faults, id);
      BackupAllHolds(w1, lists.internal, inner, cfg, faults, id);
    }
  }

  lemma {:induction false} BackupAllElsewhere(w: World, ids: seq<Identity>, pass: Config, faults: Faults, id: Identity)
    requires IsResource(id) && id !in ids && forall other | other in ids :: IsResource(other)
    ensures var x, w' := BackupId(id, pass.generation), BackupAll(w, ids, pass, faults).0;
            (x in w.objects <==> x in w'.objects) && (x in w.objects ==> w'.objects[x] == w.objects[x])
    decreases |ids|
  {
    if ids != [] {
      assert ids[0] in ids;
      if BackupId(ids[0], pass.generation) == BackupId(id, pass.generation) {
        BackupNamesDiffer(ids[0], id, pass.generation);
      }
      BackupAllElsewhere(BackupResource(w, ids[0], pass, faults).0, ids[1..], pass, faults, id);
    }
  }

  /**
   The round trip. Whatever a first successful backup selected, any number of further passes of either
   kind and any edits or deletions by others in between, a successful restore leaves the original with
   the data, labels and annotations it had then, and brings the whole of it back if it was gone.
   */
  lemma RoundTrip(w: World, first: Step, steps: seq<Step>, last: Step, cfg: Config, id: Identity)
    requires Tidy(w, cfg) && BackupId(id, cfg.generation) !in w.objects
    requires id in w.objects && IsResource(id) && id.namespace == cfg.namespace
    requires Selected(cfg.mode, w.objects[id]) || Selected(Internal, w.objects[id])
    requires first.BackupPass? && Legal(w, first, cfg) && !Backup(w, first.lists, first.pass, first.faults).1
    requires LegalRun(Next(w, first), steps, cfg)
    requires var v := Run(Next(w, first), steps);
             last.RestorePass? && Legal(v, last, cfg) && !Restore(v, last.lists, last.pass, last.faults).1
    ensures var o, v := w.objects[id], Run(Next(w, first), steps);
            var end := Next(v, last).objects;
            && o.body.Plain?
            && id in end && end[id].body.Plain? && end[id].body.data == o.body.data
            && end[id].labels == o.labels
            && end[id].annotations - {RestoredAt} == o.annotations - {RestoredAt}
            && (id !in v.objects ==> end[id].body == o.body && end[id].finalizers == o.finalizers)
  {
    var s := SnapshotOf(id, w.objects[id]);
    BackupTakes(w, first.lists, first.pass, cfg, first.faults, id);
    BackupStep(w, first.lists, first.pass, cfg, first.faults);
    RunKeeps(Next(w, first), steps, cfg, id, s);
    RestorePutsBack(Run(Next(w, first), steps), last.lists, last.pass, cfg, last.faults, id, s);
  }

  // ----- When a restore is refused -----------------------------------------------------------

  /** A fetched Secret passes validation, or is passed over, and its payload can be read. */
  predicate Acceptable(b: Object, cfg: Config) {
    match Validate(b, cfg)
    case Refuse => false
    case Skip => true
    case Proceed => Usable(b)
  }

  function Fetched(listed: Identity): Identity {
    listed.(kind := "Secret")
  }

  /** The Secret fetched for a listed name is there and acceptable. */
  predicate Accepted(w: World, listed: Identity, cfg: Config) {
    Fetched(listed) in w.objects && Acceptable(w.objects[Fetched(listed)], cfg)
  }

  /** Where restoring an object would write. */
  function Target(b: Object): Option<Identity> {
    if Usable(b) then Some(b.body.origin.(apiVersion := "v1", kind := b.annotations[ResourceType])) else None
  }

  /** No listed Secret is itself the original of a listed backup. */
  ghost predicate NoneRestored(w: World, ids: seq<Identity>) {
    forall x, y | x in ids && y in ids && Fetched(y) in w.objects :: Target(w.objects[Fetched(y)]) != Some(Fetched(x))
  }

  /** The list may have more names: the ones that are only looked at. */
  lemma {:induction false} RestoreAllFailsIff(w: World, ids: seq<Identity>, all: seq<Identity>, pass: Config, faults: Faults)
    requires faults.unreadable == {} && faults.unwritable == {}
    requires NoneRestored(w, all) && forall x | x in ids :: x in all
    ensures var (w', errors) := RestoreAll(w, ids, pass, faults);
            && (errors == 0 <==> forall x | x in ids :: Accepted(w, x, pass))
            && (forall x | x in all :: Same(w, w', Fetched(x)))
    decreases |ids|
  {
    if ids != [] {
      var w1 := RestoreResource(w, ids[0], pass, faults).0;
      assert ids[0] in ids && forall x :: x in ids <==> x == ids[0] || x in ids[1..];
      forall x | x in all
        ensures Same(w, w1, Fetched(x))
      {
        assert Fetched(ids[0]) in w.objects ==> Target(w.objects[Fetched(ids[0])]) != Some(Fetched(x));
      }
      RestoreAllFailsIff(w1, ids[1..], all, pass, faults);
    }
  }

  predicate Same(v: World, w: World, x: Identity) {
    (x in v.objects <==> x in w.objects) && (x in v.objects ==> v.objects[x] == w.objects[x])
  }

  /**
   Without API faults, a whole restore fails exactly when a listed backup, of either list, is refused:
   restoring the others first does not change that.
   */
  lemma RestoreFailsIff(w: World, lists: Listings, pass: Config, faults: Faults)
    requires faults == Faults({}, {}, false, false) && pass.mode != NoPreservation
    requires NoneRestored(w, lists.first + lists.internal)
    ensures Restore(w, lists, pass, faults).1 <==>
            || (exists x | x in lists.first :: !Accepted(w, x, pass))
            || (exists x | x in lists.internal :: !Accepted(w, x, pass.(mode := Internal)))
  {
    var all := lists.first + lists.internal;
    var w1 := RestoreAll(w, lists.first, pass, faults).0;
    RestoreAllFailsIff(w, lists.first, all, pass, faults);
    assert forall x | x in lists.internal :: x in all;
    assert NoneRestored(w1, all) by {
      forall x, y | x in all && y in all && Fetched(y) in w1.objects
        ensures Target(w1.objects[Fetched(y)]) != Some(Fetched(x))
      {
        assert Same(w, w1, Fetched(y));
      }
    }
    RestoreAllFailsIff(w1, lists.internal, all, pass.(mode := Internal), faults);
    assert forall x | x in lists.internal :: Same(w, w1, Fetched(x));
  }

  /** Otherwise what counts for the original on the list is what the restore before it has made of it. */
  lemma OriginalIsListed(w: World, y: Identity, x: Identity, pass: Config, faults: Faults)
    requires faults.unreadable == {} && faults.unwritable == {} && Fetched(y) in w.objects
    requires var b := w.objects[Fetched(y)]; Validate(b, pass) == Proceed && Target(b) == Some(Fetched(x))
    ensures RestoreAll(w, [y, x], pass, faults).1 == 0 <==>
            Acceptable(RestoredObject(w, Fetched(x), w.objects[Fetched(y)].body, pass), pass)
  {
    var w1 := RestoreResource(w, y, pass, faults).0;
    assert [y, x][1..] == [x] && [x][1..] == [];
    assert RestoreAll(w, [y, x], pass, faults).1 == RestoreAll(w1, [x], pass, faults).1;
    assert RestoreAll(w1, [x], pass, faults).1 == if RestoreResource(w1, x, pass, faults).1 then 1 else 0;
  }

  // ----- Backups left behind -----------------------------------------------------------------

  /** No backup of this request has `x` as its original. */
  ghost predicate NobodysOriginal(w: World, x: Identity, cfg: Config) {
    forall y | y in w.objects && y.namespace == cfg.namespace && Genuine(y, w.objects[y], cfg) :: w.objects[y].body.origin != x
  }

  lemma RestoreOneAvoids(w: World, listed: Identity, pass: Config, faults: Faults, x: Identity)
    requires Tidy(w, pass) && Proper(pass) && listed.namespace == pass.namespace && NobodysOriginal(w, x, pass)
    ensures var w' := RestoreResource(w, listed, pass, faults).0; NobodysOriginal(w', x, pass) && Same(w, w', x)
  {
    RestoreOneEffect(w, listed, pass, faults);
  }

  /** What is refused when it is listed makes the list fail, whatever else fails or is restored. */
  lemma {:induction false} RefusedFails(w: World, ids: seq<Identity>, pass: Config, faults: Faults, x: Identity)
    requires Tidy(w, pass) && Proper(pass) && InNamespace(ids, pass.namespace) && NobodysOriginal(w, Fetched(x), pass)
    ensures var (w', errors) := RestoreAll(w, ids, pass, faults);
            && (x in ids && !Accepted(w, x, pass) ==> errors > 0)
            && Tidy(w', pass) && NobodysOriginal(w', Fetched(x), pass) && Same(w, w', Fetched(x))
    decreases |ids|
  {
    if ids != [] {
      assert ids[0] in ids;
      RestoreOneTidy(w, ids[0], pass, faults);
      RestoreOneAvoids(w, ids[0], pass, faults, Fetched(x));
      RefusedFails(RestoreResource(w, ids[0], pass, faults).0, ids[1..], pass, faults, x);
    }
  }

  /** A preserved Secret of the namespace that belongs to another generation. */
  predicate Stale(w: World, x: Identity, cfg: Config) {
    && x in w.objects && x.kind == "Secret" && IsResource(x) && x.namespace == cfg.namespace
    && Lookup(w.objects[x].annotations, ReinstallGeneration) != cfg.generation
  }

  /** The one way past the validation of another generation's backup. */
  predicate PassedOver(b: Object, mode: Mode) {
    mode == ClusterIdentity && !IsInternal(b) && Preserve in b.annotations && b.annotations[Preserve] != ModeName(ClusterIdentity)
  }

  lemma StaleAcceptableIff(b: Object, cfg: Config)
    requires Proper(cfg) && Lookup(b.annotations, ReinstallGeneration) != cfg.generation
    ensures Acceptable(b, cfg) <==> PassedOver(b, cfg.mode)
  {
    assert |ModeName(ClusterIdentity)| == 15;
  }

  /** A restore in this mode lists the Secret and does not pass over it. */
  predicate Confronted(b: Object, mode: Mode) {
    PreservedInternalData in b.labels || (PreservedData in b.labels && !PassedOver(b, mode))
  }

  /**
   A backup left behind by another generation makes every restore fail that comes to look at it, whatever
   else happens in it: any of them in mode All, internal ones and those of a cluster identity in mode
   ClusterIdentity too. A failed reinstall cannot be followed by a successful one until someone removes it.
   */
  lemma StaleBackupBlocksRestore(w: World, lists: Listings, pass: Config, faults: Faults, x: Identity)
    requires Tidy(w, pass) && Proper(pass) && (pass.mode == All || pass.mode == ClusterIdentity)
    requires RestoreListings(w, lists, pass, faults)
    requires Stale(w, x, pass) && Confronted(w.objects[x], pass.mode) && NobodysOriginal(w, x, pass)
    ensures Restore(w, lists, pass, faults).1
  {
    var b := w.objects[x];
    var inner := pass.(mode := Internal);
    assert Fetched(x) == x;
    RefusedFails(w, lists.first, pass, faults, x);
    if PreservedInternalData in b.labels {
      var w1 := RestoreAll(w, lists.first, pass, faults).0;
      TidyForPass(w1, inner, pass);
      OriginForPass(w1, x, inner, pass);
      StaleAcceptableIff(b, inner);
      RefusedFails(w1, lists.internal, inner, faults, x);
    } else {
      StaleAcceptableIff(b, pass);
    }
  }

  lemma OriginForPass(w: World, x: Identity, pass: Config, cfg: Config)
    requires SameRequest(pass, cfg)
    ensures NobodysOriginal(w, x, cfg) <==> NobodysOriginal(w, x, pass)
  {
    assert forall y | y in w.objects :: Genuine(y, w.objects[y], cfg) <==> Genuine(y, w.objects[y], pass);
  }

  // ----- When a cleanup is refused -----------------------------------------------------------

  ghost predicate OwnedOrGone(w: World, ids: seq<Identity>, owner: string) {
    forall id | id in ids && id in w.objects :: Owner(w.objects[id]) == owner
  }

  lemma DeleteKeepsOwners(setting: Deletion.Setting, w: World, id: Identity, other: Identity)
    requires setting.timeout.None?
    ensures var (w', outcome) := Deletion.DeleteObject(setting, w, id);
            && (other in w'.objects ==> other in w.objects && Owner(w'.objects[other]) == Owner(w.objects[other]))
            && (other in w.objects && other !in w'.objects ==> Owner(w.objects[other]) == setting.owner)
  {
  }

  /**
   Without API faults, a cleanup fails exactly when one of the preserved resources it lists carries
   another owner's label: a foreign backup in the namespace keeps a reinstall from being finalized.
   */
  lemma {:induction false} CleanupFailsIff(w: World, ids: seq<Identity>, setting: Deletion.Setting)
    requires setting.timeout.None? && setting.faults == Deletion.Faults({}, {})
    ensures CleanupAll(w, ids, setting).2 == 0 <==> OwnedOrGone(w, ids, setting.owner)
    decreases |ids|
  {
    if ids != [] {
      var (w', outcome) := Deletion.DeleteObject(setting, w, ids[0]);
      CleanupFailsIff(w', ids[1..], setting);
      forall id {
        DeleteKeepsOwners(setting, w, ids[0], id);
      }
      assert forall id :: id in ids <==> id == ids[0] || id in ids[1..];
    }
  }
}
