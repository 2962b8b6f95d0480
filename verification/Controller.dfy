/**
 The main reconcile pass from the pause check to recording the observed generation, and the writers of
 the tracked list: dry-run, apply, suppress and prune. What other components answer are inputs.
 */
module Controller {
  import opened Kube
  import opened Manifests
  import opened SyncWaves
  import opened Text
  import D = Deletion
  import G = DeletionProgress
  import R = ReinstallPass
  import RL = ReinstallLaws
  import RP = ReinstallProgress
  import RS = Reinstall
  import S = DeletionSafety

  /** A request to create or update an object, and whether it succeeded. */
  datatype Call = Call(dryRun: bool, id: Identity, ok: bool)

  /** A spec and the generation the API server gave it. */
  datatype Version = Version(generation: int, spec: string)

  /** `live` is the latest version known; `applied` the one last applied in full, unless a later one failed in part. */
  datatype Cluster = Cluster(
    live: Version,
    observed: int,
    lastSpec: Option<string>,
    applied: Option<Version>,
    tracked: seq<Manifest>,
    restore: Option<string>,
    handled: Option<string>,
    paused: bool,
    world: World,
    calls: seq<Call>)

  /** The status patches of one pass that get through. */
  datatype Patches = Patches(
    prune: bool, suppress: bool, validate: bool, apply: bool, pause: bool, annotate: bool, observe: bool, handled: bool)

  /** A deletion of everything tracked, and whether the patch of the list gets through. */
  datatype Removal = Removal(setting: D.Setting, saved: bool)

  /**
   What a step outside this model does before the pass goes on or ends: it may change the store, and one
   that ends the pass may have deleted tracked objects and put the pause annotation on.
   */
  datatype Detour = GoesOn(world: World) | Stops(world: World, removal: Option<Removal>, pauses: bool)

  /**
   What one pass meets. `early` is pause clean-up, finalizer and annotation; the flags say that the
   reimport, the backup labels, the validation or the rendering ended the pass. Every status patch answers
   with the latest version, which replaces the one in memory: `gated` is the version after the reimport,
   `rendered` the one after the validation, from which the three lists are rendered, `seen` the one after
   the last status patch of the render steps.
   */
  datatype Inputs = Inputs(
    now: int,
    early: Detour,
    reimportStops: bool,
    labelStops: bool,
    reinstall: Detour,
    validationStops: bool,
    renderStops: bool,
    deletion: D.Setting,
    prune: seq<RenderedObject>,
    suppress: seq<RenderedObject>,
    render: seq<RenderedObject>,
    dryRunFails: set<Identity>,
    applyFails: set<Identity>,
    gated: Version,
    rendered: Version,
    seen: Version,
    refetched: Option<Version>,
    patches: Patches)

  // ----- Writers of the tracked list ---------------------------------------------------------

  /** A tracked entry keeps its wave; an object not yet tracked is appended. */
  function Upsert(ms: seq<Manifest>, m: Manifest, now: int): seq<Manifest> {
    var i := IndexOf(ms, m.id);
    if i < 0 then ms + [m] else ms[i := UpdateStatus(ms[i], m.status, m.message, now)]
  }

  /** The new reference of an object that was sent, or is suppressed. */
  function Sent(o: RenderedObject, status: Status, message: string, now: int): Manifest {
    Manifest(o.id, if SyncWave(o).Some? then SyncWave(o).value else 0, status, message, now)
  }

  function AfterCall(ms: seq<Manifest>, o: RenderedObject, fails: set<Identity>, status: Status, now: int): seq<Manifest> {
    Upsert(ms, if o.id in fails then Sent(o, RenderFailed, "failed", now) else Sent(o, status, "", now), now)
  }

  /** Every object is sent, also after one has failed. */
  function Execute(ms: seq<Manifest>, os: seq<RenderedObject>, fails: set<Identity>, status: Status, now: int): seq<Manifest>
    decreases |os|
  {
    if os == [] then ms else Execute(AfterCall(ms, os[0], fails, status, now), os[1..], fails, status, now)
  }

  predicate AllSucceed(os: seq<RenderedObject>, fails: set<Identity>) {
    forall o | o in os :: o.id !in fails
  }

  function Suppress(ms: seq<Manifest>, os: seq<RenderedObject>, now: int): seq<Manifest>
    decreases |os|
  {
    if os == [] then ms else Suppress(Upsert(ms, Sent(os[0], Suppressed, "", 0), now), os[1..], now)
  }

  function Calls(os: seq<RenderedObject>, fails: set<Identity>, dryRun: bool): seq<Call> {
    seq(|os|, i requires 0 <= i < |os| => Call(dryRun, os[i].id, os[i].id !in fails))
  }

  // ----- The steps of a pass -----------------------------------------------------------------

  /** The flag says that the pass goes on; `plan` is the order in which the deletion takes the objects. */
  function PruneStep(s: Cluster, inp: Inputs, plan: Plan): (Cluster, bool) {
    if inp.prune == [] then (s, true)
    else
      var r := D.DeleteObjects(inp.deletion, s.world, s.tracked, plan);
      var s1 := s.(world := r.world, tracked := if inp.patches.prune then r.manifests else s.tracked);
      if D.Reported(r, s.tracked, inp.patches.prune) != [] then
        (s1.(paused := s.paused || (D.TimeoutError in r.errors && inp.patches.pause)), false)
      else (s1, r.completed)
  }

  function SuppressStep(s: Cluster, inp: Inputs): (Cluster, bool) {
    var ms := Suppress(s.tracked, inp.suppress, inp.now);
    if ms == s.tracked then (s, true)
    else if inp.patches.suppress then (s.(tracked := ms), true)
    else (s, false)
  }

  function DryRunStep(s: Cluster, inp: Inputs): (Cluster, bool) {
    var ms := Execute(s.tracked, inp.render, inp.dryRunFails, Validated, inp.now);
    (s.(calls := s.calls + Calls(inp.render, inp.dryRunFails, true), tracked := if inp.patches.validate then ms else s.tracked),
     AllSucceed(inp.render, inp.dryRunFails) && inp.patches.validate)
  }

  function ApplyStep(s: Cluster, inp: Inputs): (Cluster, bool) {
    var ms := Execute(s.tracked, inp.render, inp.applyFails, Rendered, inp.now);
    var ok := AllSucceed(inp.render, inp.applyFails);
    (s.(calls := s.calls + Calls(inp.render, inp.applyFails, false), tracked := if inp.patches.apply then ms else s.tracked,
        applied := if ok then Some(s.live) else None),
     ok && inp.patches.apply)
  }

  function RenderStep(s: Cluster, inp: Inputs, plan: Plan): (Cluster, bool) {
    if inp.renderStops then (s, false)
    else
      var (s1, go1) := PruneStep(s, inp, plan);
      if !go1 then (s1, false)
      else
        var (s2, go2) := SuppressStep(s1, inp);
        if !go2 then (s2, false)
        else
          var (s3, go3) := DryRunStep(s2, inp);
          if !go3 then (s3, false) else ApplyStep(s3, inp)
  }

  /**
   The spec in memory is put on record, the object is fetched again, and the generation found is recorded;
   nothing is done if the version in memory counts as observed already.
   */
  function ObserveStep(s: Cluster, inp: Inputs): Cluster {
    var s0 := s.(live := inp.seen);
    if s0.observed == s0.live.generation || !inp.patches.annotate then s0
    else
      var s1 := s0.(lastSpec := Some(s0.live.spec));
      if inp.refetched.None? then s1
      else
        var s2 := s1.(live := inp.refetched.value);
        if inp.patches.observe then s2.(observed := s2.live.generation) else s2
  }

  function WorkStep(s: Cluster, inp: Inputs, plan: Plan): Cluster {
    var (s1, ok) := RenderStep(s.(live := inp.rendered), inp, plan);
    if ok then ObserveStep(s1, inp) else s1
  }

  predicate BeingRestored(s: Cluster) {
    s.restore.Some? && s.handled != s.restore
  }

  function RestoreStep(s: Cluster, inp: Inputs): Cluster {
    if !inp.patches.observe then s
    else
      var s1 := s.(observed := s.live.generation);
      if inp.patches.handled then s1.(handled := s.restore) else s1
  }

  /** `plan` is the order in which a deletion of everything tracked takes the objects. */
  function Detoured(s: Cluster, d: Detour, plan: Plan): Cluster {
    match d
    case GoesOn(world) => s.(world := world)
    case Stops(world, None, pauses) => s.(world := world, paused := pauses)
    case Stops(world, Some(removal), pauses) =>
      var r := D.DeleteObjects(removal.setting, world, s.tracked, plan);
      s.(world := r.world, tracked := if removal.saved then r.manifests else s.tracked, paused := pauses)
  }

  /** The state in which rendering starts: by then the store has changed, and the version in memory. */
  function Entering(s: Cluster, inp: Inputs, plan: Plan): Cluster {
    Detoured(Detoured(s, inp.early, plan).(live := inp.gated), inp.reinstall, plan).(live := inp.rendered)
  }

  function Reconcile(s: Cluster, inp: Inputs, plan: Plan): Cluster {
    if s.paused then s
    else
      var s1 := Detoured(s, inp.early, plan);
      if inp.early.Stops? then s1
      else if BeingRestored(s1) then RestoreStep(s1, inp)
      else Gate(s1.(live := inp.gated), inp, plan)
  }

  function Gate(s: Cluster, inp: Inputs, plan: Plan): Cluster {
    if inp.reimportStops || s.observed == s.live.generation || inp.labelStops then s
    else
      var s1 := Detoured(s, inp.reinstall, plan);
      if inp.reinstall.Stops? || inp.validationStops then s1 else WorkStep(s1, inp, plan)
  }

  // ----- The tracked list --------------------------------------------------------------------

  lemma UpsertKeepsDistinct(ms: seq<Manifest>, m: Manifest, now: int)
    requires DistinctIds(ms)
    ensures DistinctIds(Upsert(ms, m, now))
    ensures Tracked(Upsert(ms, m, now), m.id)
  {
    var r := Upsert(ms, m, now);
    var i := IndexOf(ms, m.id);
    if i < 0 {
      assert forall j | 0 <= j < |ms| :: ms[j] in ms;
      assert r[|ms|] in r;
    } else {
      assert r[i] in r;
    }
  }

  lemma {:induction false} ExecuteKeepsDistinct(ms: seq<Manifest>, os: seq<RenderedObject>, fails: set<Identity>, status: Status, now: int)
    requires DistinctIds(ms)
    ensures DistinctIds(Execute(ms, os, fails, status, now))
    decreases |os|
  {
    if os != [] {
      var m := if os[0].id in fails then Sent(os[0], RenderFailed, "failed", now) else Sent(os[0], status, "", now);
      UpsertKeepsDistinct(ms, m, now);
      ExecuteKeepsDistinct(AfterCall(ms, os[0], fails, status, now), os[1..], fails, status, now);
    }
  }

  lemma {:induction false} SuppressKeepsDistinct(ms: seq<Manifest>, os: seq<RenderedObject>, now: int)
    requires DistinctIds(ms)
    ensures DistinctIds(Suppress(ms, os, now))
    decreases |os|
  {
    if os != [] {
      var m := Sent(os[0], Suppressed, "", 0);
      UpsertKeepsDistinct(ms, m, now);
      SuppressKeepsDistinct(Upsert(ms, m, now), os[1..], now);
    }
  }

  /** The entry of an identity, if it is tracked. */
  function EntryOf(ms: seq<Manifest>, id: Identity): Option<Manifest> {
    var i := IndexOf(ms, id);
    if i < 0 then None else Some(ms[i])
  }

  lemma IndexAt(ms: seq<Manifest>, id: Identity, i: nat)
    requires i < |ms| && ms[i].id == id && forall j | 0 <= j < i :: ms[j].id != id
    ensures IndexOf(ms, id) == i
  {
    assert ms[i] in ms;
  }

  lemma NoIndex(ms: seq<Manifest>, id: Identity)
    requires forall m | m in ms :: m.id != id
    ensures IndexOf(ms, id) == -1
  {
  }

  lemma EntryOfOther(ms: seq<Manifest>, m: Manifest, id: Identity)
    requires m.id != id
    ensures EntryOf(ms + [m], id) == EntryOf(ms, id)
  {
    var i := IndexOf(ms, id);
    if i >= 0 {
      IndexAt(ms + [m], id, i);
    } else {
      NoIndex(ms + [m], id);
    }
  }

  lemma UpsertEntry(ms: seq<Manifest>, m: Manifest, now: int, id: Identity)
    ensures var was, entry := EntryOf(ms, id), EntryOf(Upsert(ms, m, now), id);
            && (id != m.id ==> entry == was)
            && (id == m.id ==> entry.Some? && entry.value.status == m.status && entry.value.message == m.message
                               && entry.value.syncWave == if was.Some? then was.value.syncWave else m.syncWave)
  {
    var r, k := Upsert(ms, m, now), IndexOf(ms, m.id);
    if k < 0 {
      if id == m.id {
        assert forall j | 0 <= j < |ms| :: ms[j] in ms;
        IndexAt(r, id, |ms|);
      } else {
        EntryOfOther(ms, m, id);
      }
    } else {
      assert forall j | 0 <= j < |ms| :: r[j].id == ms[j].id;
      var i := IndexOf(ms, id);
      if i >= 0 {
        IndexAt(r, id, i);
      } else {
        forall x | x in r
          ensures x.id != id
        {
          var j :| 0 <= j < |r| && r[j] == x;
          assert ms[j] in ms;
        }
        NoIndex(r, id);
      }
    }
  }

  /** After sending a list, each of its objects is tracked with the status its request earned. */
  lemma {:induction false} ExecuteEntry(ms: seq<Manifest>, os: seq<RenderedObject>, fails: set<Identity>, status: Status, now: int, id: Identity)
    ensures var was, entry := EntryOf(ms, id), EntryOf(Execute(ms, os, fails, status, now), id);
            if exists o | o in os :: o.id == id
            then && entry.Some? && entry.value.status == (if id in fails then RenderFailed else status)
                 && (was.Some? ==> entry.value.syncWave == was.value.syncWave)
            else entry == was
    decreases |os|
  {
    if os != [] {
      var o := os[0];
      var m := if o.id in fails then Sent(o, RenderFailed, "failed", now) else Sent(o, status, "", now);
      UpsertEntry(ms, m, now, id);
      ExecuteEntry(AfterCall(ms, o, fails, status, now), os[1..], fails, status, now, id);
      assert forall x :: x in os <==> x == o || x in os[1..];
    }
  }

  /** The wave that an object's annotation gives, 0 without one. */
  function WaveOf(o: RenderedObject): int {
    if o.wave.None? then 0
    else
      match Atoi(o.wave.value)
      case Some(n) => n
      case None => 0
  }

  /** The first object of the identity. */
  function FirstOf(os: seq<RenderedObject>, id: Identity): Option<RenderedObject> {
    if os == [] then None else if os[0].id == id then Some(os[0]) else FirstOf(os[1..], id)
  }

  lemma {:induction false} FirstOfIff(os: seq<RenderedObject>, id: Identity)
    ensures FirstOf(os, id).Some? <==> exists o | o in os :: o.id == id
    ensures FirstOf(os, id).Some? ==> FirstOf(os, id).value in os && FirstOf(os, id).value.id == id
    ensures DistinctObjects(os) ==> forall o | o in os && o.id == id :: FirstOf(os, id) == Some(o)
    decreases |os|
  {
    if os != [] {
      FirstOfIff(os[1..], id);
      assert forall o :: o in os <==> o == os[0] || o in os[1..];
    }
  }

  lemma SentWave(o: RenderedObject, status: Status, message: string, now: int)
    ensures Sent(o, status, message, now).syncWave == WaveOf(o)
  {
    if o.wave.None? {
      Unannotated(o);
    }
  }

  /** What is tracked after `os` have been sent: on the wave it had, or on that of its first object. */
  predicate Entered(was: Option<Manifest>, entry: Option<Manifest>, os: seq<RenderedObject>, id: Identity) {
    if FirstOf(os, id).None? then entry == was
    else entry.Some? && entry.value.id == id
         && entry.value.syncWave == if was.Some? then was.value.syncWave else WaveOf(FirstOf(os, id).value)
  }

  lemma UpsertEnters(ms: seq<Manifest>, o: RenderedObject, m: Manifest, now: int, id: Identity)
    requires m.id == o.id && m.syncWave == WaveOf(o)
    ensures var was, entry := EntryOf(ms, id), EntryOf(Upsert(ms, m, now), id);
            if id != o.id then entry == was
            else entry.Some? && entry.value.id == id
                 && entry.value.syncWave == (if was.Some? then was.value.syncWave else WaveOf(o))
                 && entry.value.status == m.status && entry.value.message == m.message
  {
    UpsertEntry(ms, m, now, id);
  }

  /** An object sent for the first time is tracked on the wave of its annotation. */
  lemma {:induction false} ExecuteEnters(ms: seq<Manifest>, os: seq<RenderedObject>, fails: set<Identity>, status: Status, now: int, id: Identity)
    ensures Entered(EntryOf(ms, id), EntryOf(Execute(ms, os, fails, status, now), id), os, id)
    decreases |os|
  {
    if os != [] {
      var o := os[0];
      SentWave(o, RenderFailed, "failed", now);
      SentWave(o, status, "", now);
      UpsertEnters(ms, o, if o.id in fails then Sent(o, RenderFailed, "failed", now) else Sent(o, status, "", now), now, id);
      ExecuteEnters(AfterCall(ms, o, fails, status, now), os[1..], fails, status, now, id);
    }
  }

  /** So is a suppressed one, and each of them has that status and no message. */
  lemma {:induction false} SuppressEnters(ms: seq<Manifest>, os: seq<RenderedObject>, now: int, id: Identity)
    ensures var entry := EntryOf(Suppress(ms, os, now), id);
            && Entered(EntryOf(ms, id), entry, os, id)
            && (FirstOf(os, id).Some? ==> entry.value.status == Suppressed && entry.value.message == "")
    decreases |os|
  {
    if os != [] {
      var o := os[0];
      SentWave(o, Suppressed, "", 0);
      UpsertEnters(ms, o, Sent(o, Suppressed, "", 0), now, id);
      SuppressEnters(Upsert(ms, Sent(o, Suppressed, "", 0), now), os[1..], now, id);
    }
  }

  /** What is applied to an empty list is deleted on the waves of the annotations, and nothing else is. */
  lemma AppliedTargets(os: seq<RenderedObject>, fails: set<Identity>, status: Status, now: int, exclude: seq<Identity>, id: Identity)
    requires DistinctObjects(os)
    ensures var targets := S.TargetsOf(Execute([], os, fails, status, now), exclude);
            && (id in targets <==> id !in exclude && exists o | o in os :: o.id == id)
            && forall o | o in os && o.id == id && id !in exclude :: targets[id] == WaveOf(o)
  {
    var ms := Execute([], os, fails, status, now);
    ExecuteEnters([], os, fails, status, now, id);
    FirstOfIff(os, id);
    ExecuteKeepsDistinct([], os, fails, status, now);
    TrackedMeans(ms, id);
  }

  // ----- What the gate lets through ----------------------------------------------------------

  lemma PruneKeeps(s: Cluster, inp: Inputs, plan: Plan)
    requires DistinctIds(s.tracked)
    ensures var s1 := PruneStep(s, inp, plan).0;
            && DistinctIds(s1.tracked)
            && s1.(world := s.world, tracked := s.tracked, paused := s.paused) == s
  {
    if inp.prune != [] {
      G.CallKeepsDistinct(inp.deletion, s.world, s.tracked, plan);
    }
  }

  /** The pruning either had nothing to do, or a call that removed everything it was given. */
  predicate Pruned(s: Cluster, inp: Inputs, plan: Plan) {
    inp.prune == [] ||
    (var r := D.DeleteObjects(inp.deletion, s.world, s.tracked, plan); r.completed && r.errors == [])
  }

  /** The requests of a pass that comes to applying: all dry-runs, each of them good, and then the real ones. */
  ghost predicate FullCalls(s: Cluster, s': Cluster, inp: Inputs) {
    && AllSucceed(inp.render, inp.dryRunFails)
    && s'.calls == s.calls + Calls(inp.render, inp.dryRunFails, true) + Calls(inp.render, inp.applyFails, false)
  }

  /** What a version in memory becomes once its objects have been sent. */
  function AppliedIn(s: Cluster, inp: Inputs): Option<Version> {
    if AllSucceed(inp.render, inp.applyFails) then Some(s.live) else None
  }

  lemma RenderOutcome(s: Cluster, inp: Inputs, plan: Plan)
    requires DistinctIds(s.tracked)
    ensures var (s', ok) := RenderStep(s, inp, plan);
            && DistinctIds(s'.tracked)
            && s'.observed == s.observed && s'.live == s.live && s'.lastSpec == s.lastSpec && s'.restore == s.restore
            && (|| (s'.calls == s.calls && s'.applied == s.applied && !ok)
                || (s'.calls == s.calls + Calls(inp.render, inp.dryRunFails, true) && s'.applied == s.applied && !ok)
                || (FullCalls(s, s', inp) && s'.applied == AppliedIn(s, inp) && Pruned(s, inp, plan)))
            && (ok ==> FullCalls(s, s', inp) && Pruned(s, inp, plan) && AllSucceed(inp.render, inp.applyFails)
                       && s'.applied == Some(s.live))
  {
    if !inp.renderStops {
      PruneKeeps(s, inp, plan);
      var (s1, go1) := PruneStep(s, inp, plan);
      if go1 {
        SuppressKeepsDistinct(s1.tracked, inp.suppress, inp.now);
        var (s2, go2) := SuppressStep(s1, inp);
        if go2 {
          ExecuteKeepsDistinct(s2.tracked, inp.render, inp.dryRunFails, Validated, inp.now);
          var (s3, go3) := DryRunStep(s2, inp);
          if go3 {
            ExecuteKeepsDistinct(s3.tracked, inp.render, inp.applyFails, Rendered, inp.now);
          }
        }
      }
    }
  }

  lemma RenderMarks(s: Cluster, inp: Inputs, plan: Plan, o: RenderedObject)
    requires RenderStep(s, inp, plan).1 && o in inp.render
    ensures var entry := EntryOf(RenderStep(s, inp, plan).0.tracked, o.id);
            entry.Some? && entry.value.status == Rendered
  {
    var s1 := PruneStep(s, inp, plan).0;
    var s2 := SuppressStep(s1, inp).0;
    var s3 := DryRunStep(s2, inp).0;
    assert o.id !in inp.applyFails;
    ExecuteEntry(s3.tracked, inp.render, inp.applyFails, Rendered, inp.now, o.id);
  }

  lemma DetourKeeps(s: Cluster, d: Detour, plan: Plan)
    requires DistinctIds(s.tracked)
    ensures var s1 := Detoured(s, d, plan);
            && DistinctIds(s1.tracked)
            && s1.(world := s.world, tracked := s.tracked, paused := s.paused) == s
            && (d.GoesOn? ==> s1 == s.(world := d.world))
  {
    if d.Stops? && d.removal.Some? {
      G.CallKeepsDistinct(d.removal.value.setting, d.world, s.tracked, plan);
    }
  }

  /** The pass comes to rendering. */
  predicate Renders(s: Cluster, inp: Inputs) {
    && !s.paused && inp.early.GoesOn? && !BeingRestored(s) && !inp.reimportStops && s.observed != inp.gated.generation
    && !inp.labelStops && inp.reinstall.GoesOn? && !inp.validationStops
  }

  /** The record of what was sent, applied and observed is as it was. */
  predicate SameRecord(s: Cluster, s': Cluster) {
    && s'.calls == s.calls && s'.applied == s.applied && s'.observed == s.observed && s'.lastSpec == s.lastSpec
    && s'.restore == s.restore
  }

  lemma WorkKeepsDistinct(s: Cluster, inp: Inputs, plan: Plan)
    requires DistinctIds(s.tracked)
    ensures DistinctIds(WorkStep(s, inp, plan).tracked)
  {
    RenderOutcome(s.(live := inp.rendered), inp, plan);
  }

  lemma GateOutcome(s: Cluster, inp: Inputs, plan: Plan)
    requires DistinctIds(s.tracked)
    ensures var s', e := Gate(s, inp, plan), Detoured(s, inp.reinstall, plan);
            && DistinctIds(s'.tracked) && DistinctIds(e.tracked)
            && (if !inp.reimportStops && s.observed != s.live.generation && !inp.labelStops && inp.reinstall.GoesOn? && !inp.validationStops
                then s' == WorkStep(e, inp, plan) && e == s.(world := e.world)
                else SameRecord(s, s') && s'.live == s.live)
  {
    DetourKeeps(s, inp.reinstall, plan);
    WorkKeepsDistinct(Detoured(s, inp.reinstall, plan), inp, plan);
  }

  /** What one pass comes to: no rendering at all, or the four steps from the state in which rendering starts. */
  lemma PassOutcome(s: Cluster, inp: Inputs, plan: Plan)
    requires DistinctIds(s.tracked)
    ensures var s', e := Reconcile(s, inp, plan), Entering(s, inp, plan);
            && DistinctIds(s'.tracked) && DistinctIds(e.tracked)
            && (if Renders(s, inp) then s' == WorkStep(e, inp, plan) && e == s.(world := e.world, live := inp.rendered)
                else if BeingRestored(s) then
                  SameRecord(s, s'.(observed := s.observed)) && s'.live == s.live
                  && (s'.observed == s.observed || s'.observed == s.live.generation)
                else SameRecord(s, s') && (s'.live == s.live || s'.live == inp.gated))
  {
    DetourKeeps(s, inp.early, plan);
    var s1 := Detoured(s, inp.early, plan).(live := inp.gated);
    GateOutcome(s1, inp, plan);
  }

  lemma SendsOneOf(s: Cluster, inp: Inputs, plan: Plan)
    requires DistinctIds(s.tracked)
    ensures var s' := Reconcile(s, inp, plan);
            || s'.calls == s.calls
            || s'.calls == s.calls + Calls(inp.render, inp.dryRunFails, true)
            || (FullCalls(s, s', inp) && Pruned(Entering(s, inp, plan), inp, plan))
  {
    PassOutcome(s, inp, plan);
    RenderOutcome(Entering(s, inp, plan), inp, plan);
  }

  /**
   A pass sends real requests only after pruning was complete and every object of the same list had passed
   its dry-run; a paused instance sends nothing.
   */
  lemma AppliesOnlyAfterDryRun(s: Cluster, inp: Inputs, plan: Plan)
    requires DistinctIds(s.tracked)
    ensures var s' := Reconcile(s, inp, plan);
            && s.calls <= s'.calls
            && (s.paused ==> s' == s)
            && ((exists c | c in s'.calls[|s.calls|..] :: !c.dryRun) ==>
                  FullCalls(s, s', inp) && Pruned(Entering(s, inp, plan), inp, plan))
  {
    SendsOneOf(s, inp, plan);
    var calls := Reconcile(s, inp, plan).calls;
    var dry := Calls(inp.render, inp.dryRunFails, true);
    if calls == s.calls {
      assert calls[|s.calls|..] == [];
    } else if calls == s.calls + dry {
      assert calls[|s.calls|..] == dry;
      assert forall c | c in dry :: c.dryRun;
    }
  }

  /** Every object of the list was applied, and each of them is tracked as rendered. */
  ghost predicate FullyApplied(s: Cluster, s': Cluster, inp: Inputs, plan: Plan) {
    && AllSucceed(inp.render, inp.applyFails) && FullCalls(s, s', inp) && Pruned(Entering(s, inp, plan), inp, plan)
    && s'.applied == Some(inp.rendered)
    && forall o | o in inp.render :: EntryOf(s'.tracked, o.id).Some? && EntryOf(s'.tracked, o.id).value.status == Rendered
  }

  /**
   The observed generation changes only in the Velero branch, or when every object of the list was applied.
   What it then becomes is the generation found by the re-fetch.
   */
  lemma ObservedOnlyAfterSuccess(s: Cluster, inp: Inputs, plan: Plan)
    requires DistinctIds(s.tracked)
    ensures var s' := Reconcile(s, inp, plan);
            && DistinctIds(s'.tracked)
            && (s'.observed != s.observed ==>
                  || (BeingRestored(s) && s'.observed == s.live.generation)
                  || (FullyApplied(s, s', inp, plan) && inp.refetched.Some? && s'.observed == inp.refetched.value.generation
                      && s'.lastSpec == Some(inp.seen.spec)))
  {
    PassOutcome(s, inp, plan);
    var e := Entering(s, inp, plan);
    RenderOutcome(e, inp, plan);
    if RenderStep(e, inp, plan).1 {
      forall o | o in inp.render {
        RenderMarks(e, inp, plan, o);
      }
    }
  }

  // ----- Versions ----------------------------------------------------------------------------

  /** Generations only grow, and one generation has one spec. */
  predicate Follows(a: Version, b: Version) {
    a.generation < b.generation || a == b
  }

  /** The versions a pass meets, each the answer to a later request than the one before. */
  predicate Consistent(s: Cluster, inp: Inputs) {
    && Follows(s.live, inp.gated) && Follows(inp.gated, inp.rendered) && Follows(inp.rendered, inp.seen)
    && (inp.refetched.Some? ==> Follows(inp.seen, inp.refetched.value))
  }

  predicate Settled(s: Cluster) {
    s.observed == s.live.generation
  }

  /** The pass applied everything and recorded a generation. */
  predicate Records(s: Cluster, inp: Inputs, plan: Plan) {
    && Renders(s, inp) && RenderStep(Entering(s, inp, plan), inp, plan).1
    && s.observed != inp.seen.generation && inp.patches.annotate && inp.refetched.Some? && inp.patches.observe
  }

  /** What a recording pass leaves: the version of the validation applied, the one of the last patch on record, the one of the re-fetch observed. */
  ghost predicate Left(s': Cluster, inp: Inputs) {
    && inp.refetched.Some?
    && s'.applied == Some(inp.rendered) && s'.lastSpec == Some(inp.seen.spec)
    && s'.live == inp.refetched.value && Settled(s')
  }

  lemma RecordLeaves(s: Cluster, inp: Inputs, plan: Plan)
    requires DistinctIds(s.tracked) && Records(s, inp, plan)
    ensures Left(Reconcile(s, inp, plan), inp)
  {
    PassOutcome(s, inp, plan);
    RenderOutcome(Entering(s, inp, plan), inp, plan);
  }

  /** A pass that does not record leaves a settled instance alone and settles no other; Velero apart. */
  lemma UnrecordedPass(s: Cluster, inp: Inputs, plan: Plan)
    requires DistinctIds(s.tracked) && Consistent(s, inp) && s.observed <= s.live.generation
    requires !Records(s, inp, plan) && !BeingRestored(s)
    ensures var s' := Reconcile(s, inp, plan);
            && s'.observed == s.observed && s'.restore == s.restore && Follows(s.live, s'.live)
            && (Settled(s') ==> Settled(s) && s'.live == s.live && s'.applied == s.applied && s'.lastSpec == s.lastSpec)
  {
    PassOutcome(s, inp, plan);
    RenderOutcome(Entering(s, inp, plan), inp, plan);
  }

  // ----- Runs --------------------------------------------------------------------------------

  /** A pass, a write of the spec, or anything that happens to the store and to the restore label and the pause. */
  datatype Step =
    | Pass(inp: Inputs, plan: Plan)
    | SpecWrite(spec: string)
    | Others(world: World, restore: Option<string>, paused: bool)

  function Next(s: Cluster, step: Step): Cluster {
    match step
    case Pass(inp, plan) => Reconcile(s, inp, plan)
    case SpecWrite(spec) => if spec == s.live.spec then s else s.(live := Version(s.live.generation + 1, spec))
    case Others(world, restore, paused) => s.(world := world, restore := restore, paused := paused)
  }

  function Run(s: Cluster, steps: seq<Step>): Cluster
    decreases |steps|
  {
    if steps == [] then s else Run(Next(s, steps[0]), steps[1..])
  }

  /** Whatever passes, spec writes and other changes follow each other, the tracked identities stay distinct. */
  lemma {:induction false} RunKeepsDistinct(s: Cluster, steps: seq<Step>)
    requires DistinctIds(s.tracked)
    ensures DistinctIds(Run(s, steps).tracked)
    decreases |steps|
  {
    if steps != [] {
      if steps[0].Pass? {
        PassOutcome(s, steps[0].inp, steps[0].plan);
      }
      RunKeepsDistinct(Next(s, steps[0]), steps[1..]);
    }
  }

  ghost predicate ConsistentRun(s: Cluster, steps: seq<Step>)
    decreases |steps|
  {
    steps == [] || ((steps[0].Pass? ==> Consistent(s, steps[0].inp)) && ConsistentRun(Next(s, steps[0]), steps[1..]))
  }

  /** The step settled the instance as it is at the `end`: a pass that recorded, or one for Velero. */
  ghost predicate Settles(s: Cluster, step: Step, end: Cluster) {
    && step.Pass? && DistinctIds(s.tracked)
    && (BeingRestored(s) || (Records(s, step.inp, step.plan) && Consistent(s, step.inp) && Left(end, step.inp)))
  }

  /** Same version live, applied and on record. */
  predicate SameVersions(s: Cluster, s': Cluster) {
    s'.live == s.live && s'.applied == s.applied && s'.lastSpec == s.lastSpec
  }

  /** One step settles the instance, or it was settled before and is as it was. */
  lemma StepSettles(s: Cluster, step: Step)
    requires DistinctIds(s.tracked) && s.observed <= s.live.generation
    requires step.Pass? ==> Consistent(s, step.inp)
    ensures var s' := Next(s, step);
            && DistinctIds(s'.tracked) && s'.observed <= s'.live.generation
            && (Settled(s') ==> Settles(s, step, s') || (Settled(s) && SameVersions(s, s')))
  {
    if step.Pass? {
      PassOutcome(s, step.inp, step.plan);
      if BeingRestored(s) {
      } else if Records(s, step.inp, step.plan) {
        RecordLeaves(s, step.inp, step.plan);
      } else {
        UnrecordedPass(s, step.inp, step.plan);
      }
    }
  }

  lemma {:induction false} LastSettling(s: Cluster, steps: seq<Step>) returns (k: int)
    requires DistinctIds(s.tracked) && s.observed <= s.live.generation && ConsistentRun(s, steps)
    requires Settled(Run(s, steps))
    ensures -1 <= k < |steps|
    ensures var end := Run(s, steps);
            if k < 0 then Settled(s) && SameVersions(s, end) else Settles(Run(s, steps[..k]), steps[k], end)
    decreases |steps|
  {
    k := -1;
    if steps != [] {
      var s1 := Next(s, steps[0]);
      StepSettles(s, steps[0]);
      var j := LastSettling(s1, steps[1..]);
      assert steps[..0] == [];
      if j >= 0 {
        assert steps[..j + 1][1..] == steps[1..][..j];
        k := j + 1;
      } else if Settles(s, steps[0], s1) {
        k := 0;
      }
    }
  }

  /**
   Whenever a run has settled an instance, some pass of it did so, for Velero or by recording; and what
   counts as observed is what was applied exactly when that pass was told of no spec write between its
   validation and its re-fetch. Otherwise a spec that was never applied counts as observed.
   */
  lemma SettledIsAppliedIff(s: Cluster, steps: seq<Step>) returns (k: nat)
    requires DistinctIds(s.tracked) && s.observed < s.live.generation && ConsistentRun(s, steps)
    requires Settled(Run(s, steps))
    ensures k < |steps| && steps[k].Pass?
    ensures var at, end, inp := Run(s, steps[..k]), Run(s, steps), steps[k].inp;
            || BeingRestored(at)
            || (&& Records(at, inp, steps[k].plan) && inp.refetched.Some? && end.applied.Some?
                && (end.applied == Some(end.live) <==> inp.rendered.generation == inp.refetched.value.generation)
                && (end.applied != Some(end.live) ==> end.applied.value.generation < end.observed)
                && (end.lastSpec == Some(end.live.spec) <==> inp.seen.spec == inp.refetched.value.spec)
                && (end.lastSpec == Some(end.applied.value.spec) <==> inp.seen.spec == inp.rendered.spec))
  {
    k := LastSettling(s, steps);
  }

  /** No spec write falls between the validation of a pass and its re-fetch, and Velero restores nothing. */
  ghost predicate Undisturbed(s: Cluster, steps: seq<Step>)
    decreases |steps|
  {
    steps == [] ||
    (&& (match steps[0]
         case Pass(inp, _) => Consistent(s, inp) && (inp.refetched.Some? ==> inp.refetched.value == inp.rendered)
         case Others(_, restore, _) => restore.None?
         case SpecWrite(_) => true)
     && Undisturbed(Next(s, steps[0]), steps[1..]))
  }

  /** A settled instance has its own version applied and its own spec on record. */
  predicate Honest(s: Cluster) {
    && s.restore.None? && s.observed <= s.live.generation
    && (Settled(s) ==> s.applied == Some(s.live) && s.lastSpec == Some(s.live.spec))
  }

  /**
   In such a run the version of a settled instance is the one applied last, in full, and its spec is on
   record, through any number of spec writes, failed passes and reinstalls.
   */
  lemma {:induction false} SettledMeansApplied(s: Cluster, steps: seq<Step>)
    requires DistinctIds(s.tracked) && Honest(s) && Undisturbed(s, steps)
    ensures Honest(Run(s, steps))
    decreases |steps|
  {
    if steps != [] {
      if steps[0].Pass? {
        HonestPass(s, steps[0].inp, steps[0].plan);
      }
      SettledMeansApplied(Next(s, steps[0]), steps[1..]);
    }
  }

  lemma HonestPass(s: Cluster, inp: Inputs, plan: Plan)
    requires DistinctIds(s.tracked) && Honest(s) && Consistent(s, inp)
    requires inp.refetched.Some? ==> inp.refetched.value == inp.rendered
    ensures Honest(Reconcile(s, inp, plan)) && DistinctIds(Reconcile(s, inp, plan).tracked)
  {
    PassOutcome(s, inp, plan);
    if Records(s, inp, plan) {
      RecordLeaves(s, inp, plan);
      RenderOutcome(Entering(s, inp, plan), inp, plan);
    } else {
      UnrecordedPass(s, inp, plan);
    }
  }

  /**
   A settled instance is left alone until its spec is written again, whether or not what was recorded was
   ever applied: no request is sent for it.
   */
  lemma {:induction false} SettledIsLeftAlone(s: Cluster, steps: seq<Step>)
    requires DistinctIds(s.tracked) && Settled(s) && s.restore.None?
    requires forall step | step in steps ::
               !step.SpecWrite? && (step.Pass? ==> step.inp.gated == s.live) && (step.Others? ==> step.restore.None?)
    ensures SameRecord(s, Run(s, steps)) && Run(s, steps).live == s.live
    decreases |steps|
  {
    if steps != [] {
      assert steps[0] in steps;
      if steps[0].Pass? {
        PassOutcome(s, steps[0].inp, steps[0].plan);
      }
      SettledIsLeftAlone(Next(s, steps[0]), steps[1..]);
    }
  }

  /**
   What a reinstall pass does to the store and the tracked list is such a detour: it ends the pass exactly
   when it asks for another one or fails, and pauses the instance when the reinstall does.
   */
  lemma ReinstallIsDetour(s: Cluster, whole: R.Whole, inst: R.Instance, req: RS.Request, m: R.Meeting) returns (d: Detour)
    requires whole.world == s.world && whole.tracked == s.tracked
    ensures var (after, stage) := R.WholePass(whole, inst, req, m);
            var o := RS.Pass(whole.status, req, R.InputsOf(whole, inst, req, m));
            && Detoured(s, d, m.plan).world == after.world && Detoured(s, d, m.plan).tracked == after.tracked
            && (d.Stops? <==> o.requeue || o.failed)
            && (d.Stops? ==> d.pauses == o.paused && Detoured(s, d, m.plan).paused == o.paused)
            && (o.paused ==> d.Stops?)
  {
    R.WholePassIs(whole, inst, req, m);
    var inp := R.InputsOf(whole, inst, req, m);
    var o := RS.Pass(whole.status, req, inp);
    var after := R.WholePass(whole, inst, req, m).0;
    RL.PauseFails(whole.status, req, inp);
    if RP.CallsNow(whole.status, req, inp) {
      DeletionStops(whole.status.value, req, inp);
      d := Stops(R.BackedUpStore(whole, inst, req, m).0,
                 Some(Removal(R.SettingOf(whole, inst, m), R.ListStored(whole, inp, m.listSaved))), o.paused);
    } else if o.requeue || o.failed {
      d := Stops(after.world, None, o.paused);
    } else {
      d := GoesOn(after.world);
    }
  }

  /** A reinstall pass that calls the deletion never lets the reconcile pass go on. */
  lemma DeletionStops(st: RS.ReinstallStatus, req: RS.Request, inp: RS.Inputs)
    requires RP.CallsNow(Some(st), req, inp)
    ensures var o := RS.Pass(Some(st), req, inp); o.requeue || o.failed
  {
    RL.DeletesAtDeleting(st, req, inp);
    RL.DeleteStops(st, inp);
  }
}
