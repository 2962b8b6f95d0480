/**
 A reinstall completes, on the store it works on: with no failing calls, and with whatever is marked for
 deletion gone before the next pass, the number of passes is bounded by the number of waves.
 */
module ReinstallCompletion {
  import opened Kube
  import opened Reinstall
  import opened ReinstallPass
  import D = Deletion
  import G = DeletionProgress
  import L = PreservationLaws
  import M = Manifests
  import MC = ManagedCluster
  import P = Preservation
  import RL = ReinstallLaws
  import RP = ReinstallProgress
  import RS = ReinstallSafety
  import S = DeletionSafety
  import W = SyncWaves

  // ----- Before the deletion -----------------------------------------------------------------

  /** From `v` to `w` the object is there and owned as before, and marked no later. */
  ghost predicate Calm(v: World, w: World, owner: string, id: Identity) {
    && (OwnedLive(v, owner, id) <==> OwnedLive(w, owner, id))
    && (OwnedLive(v, owner, id) ==> v.objects[id].deletedAt == w.objects[id].deletedAt)
  }

  lemma {:induction false} LabelIsCalm(w: World, inst: Instance, names: seq<string>, faults: P.Faults, id: Identity)
    requires faults == P.Faults({}, {}, false, false)
    ensures var (w', failed) := LabelSecrets(w, inst, names, faults);
            && !failed && Calm(w, w', inst.owner, id)
    decreases |names|
  {
    if names != [] {
      var (w', _) := LabelSecret(w, Identity("v1", "Secret", inst.namespace, names[0]), faults);
      LabelIsCalm(w', inst, names[1..], faults, id);
    }
  }

  lemma {:induction false} BackupAllIsCalm(w: World, ids: seq<Identity>, cfg: P.Config, faults: P.Faults, id: Identity)
    requires forall x | x in ids :: P.IsResource(x)
    ensures var w' := P.BackupAll(w, ids, cfg, faults).0;
            && (!L.BackupNamed(id, cfg.generation) ==> Calm(w, w', cfg.owner, id))
            && (id in w.objects ==> id in w'.objects)
    decreases |ids|
  {
    if ids != [] {
      assert P.IsResource(ids[0]);
      assert L.BackupNamed(P.BackupId(ids[0], cfg.generation), cfg.generation);
      BackupAllIsCalm(P.BackupResource(w, ids[0], cfg, faults).0, ids[1..], cfg, faults, id);
    }
  }

  lemma {:induction false} BackupAllSucceeds(w: World, ids: seq<Identity>, cfg: P.Config, faults: P.Faults)
    requires faults == P.Faults({}, {}, false, false)
    requires forall x | x in ids :: P.IsResource(x) && x in w.objects
    ensures P.BackupAll(w, ids, cfg, faults).1 == 0
    decreases |ids|
  {
    if ids != [] {
      assert ids[0] in ids;
      BackupAllSucceeds(P.BackupResource(w, ids[0], cfg, faults).0, ids[1..], cfg, faults);
    }
  }

  lemma BackupSucceeds(w: World, lists: P.Listings, cfg: P.Config, faults: P.Faults)
    requires faults == P.Faults({}, {}, false, false)
    requires P.BackupListings(w, lists, cfg, faults)
    ensures !P.Backup(w, lists, cfg, faults).1
  {
    BackupAllSucceeds(w, lists.first, cfg, faults);
    BackupAllSucceeds(P.BackupAll(w, lists.first, cfg, faults).0, lists.internal, cfg.(mode := P.Internal), faults);
  }

  lemma BackupIsCalm(w: World, lists: P.Listings, cfg: P.Config, faults: P.Faults, id: Identity)
    requires P.BackupListings(w, lists, cfg, faults)
    ensures var w' := P.Backup(w, lists, cfg, faults).0;
            && (!L.BackupNamed(id, cfg.generation) ==> Calm(w, w', cfg.owner, id))
  {
    BackupAllIsCalm(w, lists.first, cfg, faults, id);
    BackupAllIsCalm(P.BackupAll(w, lists.first, cfg, faults).0, lists.internal, cfg.(mode := P.Internal), faults, id);
  }

  // ----- The pass ----------------------------------------------------------------------------

  /** What all passes meet alike. */
  datatype Course = Course(inst: Instance, req: Request, preserved: Tally, restored: Tally)

  function OutcomesOf(c: Course): Outcomes {
    Outcomes(true, None, None, c.preserved, None, Finished, None, c.restored, None, None)
  }

  /**
   No call fails, every patch gets through, no deletion is overdue, the listings are truthful, and nothing
   in the namespace is refused by the restore or the cleanup.
   */
  ghost predicate Smooth(s: Whole, c: Course, m: Meeting) {
    && m.allowed && m.faults == P.Faults({}, {}, false, false) && m.deletionFaults == D.Faults({}, {})
    && m.patches == Patches(true, true, true) && m.listSaved && m.diff.None?
    && m.preserved == c.preserved && m.restored == c.restored
    && P.BackupListings(Labelled(s, c.inst, m).0, m.backupLists, ConfigOf(c.inst, c.req, m), m.faults)
    && W.DeletionPlan(m.plan, W.ObjectsFor(s.tracked)) && G.InTime(s.world, s.tracked, SettingOf(s, c.inst, m))
    && !RestoredStore(s, c.inst, c.req, m).1 && !CleanedStore(s, c.inst, c.req, m).2
  }

  /** The pass, and then everything gone that it marked. */
  function SettledPass(s: Whole, c: Course, m: Meeting): Whole {
    var s' := WholePass(s, c.inst, c.req, m).0;
    s'.(world := Settle(s'.world))
  }

  /** ManagedCluster is cluster-scoped. */
  predicate ClusterScoped(ms: seq<M.Manifest>) {
    var m := MC.FirstCluster(ms);
    m.Some? ==> m.value.id.namespace == ""
  }

  /** What holds between two passes; no tracked object has the name of a backup. */
  ghost predicate Ready(s: Whole, c: Course, exclude: seq<Identity>, clock: int) {
    && (s.status.Some? ==> RS.Sound(s.status.value, clock))
    && M.DistinctIds(s.tracked)
    && ClusterScoped(s.tracked) && MC.Spared(s.tracked) == exclude
    && forall m | m in s.tracked :: !L.BackupNamed(m.id, c.req.generation)
  }

  function Target(c: Course, exclude: seq<Identity>): D.Setting {
    D.Setting(c.inst.owner, exclude, 0, None, D.Faults({}, {}))
  }

  ghost function Waves(w: World, ms: seq<M.Manifest>, c: Course, exclude: seq<Identity>): nat {
    |G.LiveWaves(w, ms, Target(c, exclude))|
  }

  /** The stores before the deletion have the same live waves. */
  lemma BackedUpIsCalm(s: Whole, c: Course, m: Meeting, exclude: seq<Identity>, clock: int)
    requires Ready(s, c, exclude, clock) && Smooth(s, c, m)
    ensures var w0, w1 := Labelled(s, c.inst, m).0, BackedUpStore(s, c.inst, c.req, m).0;
            && G.LiveWaves(w0, s.tracked, Target(c, exclude)) == G.LiveWaves(s.world, s.tracked, Target(c, exclude))
            && G.LiveWaves(w1, s.tracked, Target(c, exclude)) == G.LiveWaves(s.world, s.tracked, Target(c, exclude))
            && forall x | x in s.tracked :: Calm(s.world, w1, c.inst.owner, x.id)
  {
    var cfg := ConfigOf(c.inst, c.req, m);
    var w0, w1 := Labelled(s, c.inst, m).0, BackedUpStore(s, c.inst, c.req, m).0;
    forall id
      ensures !L.BackupNamed(id, c.req.generation) ==> Calm(w0, w1, c.inst.owner, id)
      ensures Calm(s.world, w0, c.inst.owner, id)
    {
      LabelIsCalm(s.world, c.inst, c.inst.secrets, m.faults, id);
      BackupIsCalm(w0, m.backupLists, cfg, m.faults, id);
    }
  }

  /** Its deletion is still in time. */
  lemma StillInTime(s: Whole, c: Course, m: Meeting, exclude: seq<Identity>, clock: int)
    requires Ready(s, c, exclude, clock) && Smooth(s, c, m)
    ensures G.InTime(BackedUpStore(s, c.inst, c.req, m).0, s.tracked, SettingOf(s, c.inst, m))
  {
    var w1, setting := BackedUpStore(s, c.inst, c.req, m).0, SettingOf(s, c.inst, m);
    BackedUpIsCalm(s, c, m, exclude, clock);
    forall id | G.Live(w1, s.tracked, setting, id)
      ensures !G.Overdue(setting, w1, id)
    {
      M.TrackedMeans(s.tracked, id);
      assert s.tracked[M.IndexOf(s.tracked, id)] in s.tracked;
      assert G.Live(s.world, s.tracked, setting, id);
    }
  }

  /** No operation of a smooth pass fails. */
  lemma NothingFails(s: Whole, c: Course, m: Meeting)
    requires Smooth(s, c, m)
    ensures !Labelled(s, c.inst, m).1 && !BackedUpStore(s, c.inst, c.req, m).1
  {
    BackupSucceeds(Labelled(s, c.inst, m).0, m.backupLists, ConfigOf(c.inst, c.req, m), m.faults);
    LabelIsCalm(s.world, c.inst, c.inst.secrets, m.faults, Identity("", "", "", ""));
  }

  /** Its deletion finishes exactly when no wave is live, and takes away one at least if there is any. */
  lemma DeletionTakesOne(s: Whole, c: Course, m: Meeting, exclude: seq<Identity>, clock: int)
    requires Ready(s, c, exclude, clock) && Smooth(s, c, m)
    ensures var r, k := DeletedStore(s, c.inst, c.req, m), Waves(s.world, s.tracked, c, exclude);
            && r.errors == [] && (r.completed <==> k == 0)
            && Waves(Settle(r.world), r.manifests, c, exclude) <= (if k == 0 then 0 else k - 1)
  {
    var w1 := BackedUpStore(s, c.inst, c.req, m).0;
    BackedUpIsCalm(s, c, m, exclude, clock);
    StillInTime(s, c, m, exclude, clock);
    G.EagerStep(S.State(w1, s.tracked), G.Attempt(SettingOf(s, c.inst, m), m.plan), Target(c, exclude));
    G.CallTakesTopWave(w1, s.tracked, SettingOf(s, c.inst, m), m.plan);
    G.NeededAtMost(w1, s.tracked, Target(c, exclude));
  }

  /** In a smooth pass every task has what it needs. */
  lemma SmoothInputs(s: Whole, c: Course, m: Meeting, exclude: seq<Identity>, clock: int)
    requires Ready(s, c, exclude, clock) && Smooth(s, c, m)
    ensures var inp := InputsOf(s, c.inst, c.req, m);
            && RP.Stable(inp, OutcomesOf(c))
            && (inp.out.deletion == Finished <==> Waves(s.world, s.tracked, c, exclude) == 0)
  {
    NothingFails(s, c, m);
    DeletionTakesOne(s, c, m, exclude, clock);
  }

  // ----- One pass ----------------------------------------------------------------------------

  /** The deletion of this request is not over. */
  predicate DeletionAhead(st: Option<ReinstallStatus>, generation: string) {
    !Processed(st, generation) && (NeedsInit(st, generation) || !RL.DeletionClosed(st.value))
  }

  lemma AheadIsNotRegained(st: Option<ReinstallStatus>, req: Request, inp: Inputs)
    requires st.Some? ==> RS.Sound(st.value, inp.now)
    requires !DeletionAhead(st, req.generation)
    ensures !DeletionAhead(Pass(st, req, inp).status, req.generation)
    ensures !Processed(st, req.generation) ==> !RP.CallsNow(st, req, inp)
  {
    if !Processed(st, req.generation) {
      RL.ClosedStays(st, RS.Process(req, inp), req.generation);
    }
  }

  lemma RestoringComesAfter(st: ReinstallStatus, req: Request, inp: Inputs)
    requires RunTasks(TasksFor(req), st, req, inp).Stopped? && RunTasks(TasksFor(req), st, req, inp).task == Restoring
    ensures RL.DeletionClosed(st)
  {
    var ts := TasksFor(req);
    assert ts[4] == Deleting && ts[5] == Restoring;
    PassedOver(ts, st, req, inp, 5);
    assert !Stops(RunTask(ts[4], st, req, inp));
    RL.TaskStops(Deleting, st, req, inp);
  }

  lemma FinalizingComesAfter(st: ReinstallStatus, req: Request, inp: Inputs)
    requires RunTasks(TasksFor(req), st, req, inp).Through?
    ensures RL.DeletionClosed(st)
  {
    RL.ThroughIff(TasksFor(req), st, req, inp);
    assert TasksFor(req)[4] == Deleting;
    RL.TaskStops(Deleting, st, req, inp);
  }

  /** A pass that comes past the deletion finds it over. */
  lemma PastDeletion(st: Option<ReinstallStatus>, req: Request, inp: Inputs)
    requires Pass(st, req, inp).stage == AtTask(Restoring) || Pass(st, req, inp).stage == Finalizing
    ensures !DeletionAhead(st, req.generation)
  {
    RL.StageOfWork(st.value, req, inp);
    if Pass(st, req, inp).stage == Finalizing {
      FinalizingComesAfter(st.value, req, inp);
    } else {
      RestoringComesAfter(st.value, req, inp);
    }
  }

  /** While the deletion is ahead, waves only go away, and one does in a pass that waits. */
  lemma WavesGoDown(s: Whole, c: Course, m: Meeting, exclude: seq<Identity>, clock: int)
    requires Ready(s, c, exclude, clock) && Smooth(s, c, m) && DeletionAhead(s.status, c.req.generation)
    ensures var s' := SettledPass(s, c, m);
            && Waves(s'.world, s'.tracked, c, exclude) <= Waves(s.world, s.tracked, c, exclude)
            && (RP.WaitsNow(s.status, c.req, InputsOf(s, c.inst, c.req, m)) ==>
                  Waves(s'.world, s'.tracked, c, exclude) < Waves(s.world, s.tracked, c, exclude))
  {
    var inp := InputsOf(s, c.inst, c.req, m);
    SmoothInputs(s, c, m, exclude, clock);
    DeletionTakesOne(s, c, m, exclude, clock);
    WholePassIs(s, c.inst, c.req, m);
    if !RP.CallsNow(s.status, c.req, inp) {
      WavesStay(s, c, m, exclude, clock);
    }
  }

  lemma WavesStay(s: Whole, c: Course, m: Meeting, exclude: seq<Identity>, clock: int)
    requires Ready(s, c, exclude, clock) && Smooth(s, c, m) && DeletionAhead(s.status, c.req.generation)
    requires !RP.CallsNow(s.status, c.req, InputsOf(s, c.inst, c.req, m))
    ensures var s' := SettledPass(s, c, m);
            Waves(s'.world, s'.tracked, c, exclude) <= Waves(s.world, s.tracked, c, exclude)
  {
    var (s', stage) := WholePass(s, c.inst, c.req, m);
    WholePassIs(s, c.inst, c.req, m);
    StageBefore(s, c, m, stage);
    StoreBefore(s, c.inst, c.req, m, stage);
    StoreKeepsWaves(s, c, m, exclude, clock, s'.world);
  }

  lemma StageBefore(s: Whole, c: Course, m: Meeting, stage: Stage)
    requires DeletionAhead(s.status, c.req.generation) && stage == WholePass(s, c.inst, c.req, m).1
    ensures stage != AtTask(Restoring) && stage != Finalizing
  {
    if stage == AtTask(Restoring) || stage == Finalizing {
      PastDeletion(s.status, c.req, InputsOf(s, c.inst, c.req, m));
    }
  }

  lemma StoreBefore(s: Whole, inst: Instance, req: Request, m: Meeting, stage: Stage)
    requires stage != AtTask(Restoring) && stage != Finalizing
    ensures var w := StoreAfter(s, inst, req, m, stage, false);
            w == s.world || w == Labelled(s, inst, m).0 || w == BackedUpStore(s, inst, req, m).0
  {
  }

  lemma StoreKeepsWaves(s: Whole, c: Course, m: Meeting, exclude: seq<Identity>, clock: int, w: World)
    requires Ready(s, c, exclude, clock) && Smooth(s, c, m)
    requires w == s.world || w == Labelled(s, c.inst, m).0 || w == BackedUpStore(s, c.inst, c.req, m).0
    ensures Waves(Settle(w), s.tracked, c, exclude) <= Waves(s.world, s.tracked, c, exclude)
  {
    BackedUpIsCalm(s, c, m, exclude, clock);
    G.SettledWaves(w, s.tracked, Target(c, exclude));
    G.NoMore(G.LiveWaves(Settle(w), s.tracked, Target(c, exclude)), G.LiveWaves(w, s.tracked, Target(c, exclude)));
  }

  // ----- What stays between passes -----------------------------------------------------------

  lemma {:induction false} NoClusterStays(before: seq<M.Manifest>, after: seq<M.Manifest>, removed: seq<M.Manifest>)
    requires |before| == |after| && MC.FirstCluster(before).None?
    requires forall i | 0 <= i < |before| :: after[i] == before[i] || after[i].status != M.Rendered
    ensures MC.FirstCluster(D.Filter(after, removed)).None?
  {
    if before != [] {
      assert !MC.IsRenderedCluster(before[0]) && !MC.IsRenderedCluster(after[0]);
      NoClusterStays(before[1..], after[1..], removed);
    }
  }

  lemma SparedStays(cfg: D.Setting, w: World, ms: seq<M.Manifest>, plan: W.Plan)
    requires ClusterScoped(ms) && cfg.exclude == MC.Spared(ms)
    ensures var r := D.DeleteObjects(cfg, w, ms, plan);
            MC.FirstCluster(r.manifests) == MC.FirstCluster(ms)
  {
    match MC.FirstCluster(ms)
    case Some(m) => MC.CallSparesCluster(cfg, w, ms, plan, m);
    case None =>
      var p := D.Start(w, ms);
      var q := D.RunWaves(cfg, p, plan).0;
      MC.WavesSparing(cfg, p, plan);
      NoClusterStays(ms, q.manifests, q.removed);
  }

  lemma ReadyStays(s: Whole, c: Course, m: Meeting, exclude: seq<Identity>, clock: int)
    requires Ready(s, c, exclude, clock) && clock <= m.now
    ensures Ready(SettledPass(s, c, m), c, exclude, m.now)
  {
    var s', r := SettledPass(s, c, m), DeletedStore(s, c.inst, c.req, m);
    var w1 := BackedUpStore(s, c.inst, c.req, m).0;
    RS.PassIsSound(s.status, c.req, InputsOf(s, c.inst, c.req, m));
    WholePassIs(s, c.inst, c.req, m);
    G.CallKeepsDistinct(SettingOf(s, c.inst, m), w1, s.tracked, m.plan);
    G.CallKeepsIds(SettingOf(s, c.inst, m), w1, s.tracked, m.plan);
    SparedStays(SettingOf(s, c.inst, m), w1, s.tracked, m.plan);
    forall x | x in s'.tracked
      ensures !L.BackupNamed(x.id, c.req.generation)
    {
      assert x.id in G.Ids(s'.tracked);
    }
  }

  // ----- Completion --------------------------------------------------------------------------

  /** A pass, and the store that the next one finds. */
  datatype Round = Round(m: Meeting, later: World)

  function AfterRound(s: Whole, c: Course, r: Round): Whole {
    SettledPass(s, c, r.m).(world := r.later)
  }

  /** Of the tracked objects, those that were marked are gone, and none is made again or given to this owner. */
  ghost predicate AllGone(s: Whole, c: Course, later: World) {
    forall x | x in s.tracked :: OwnedLive(later, c.inst.owner, x.id) ==> OwnedLive(s.world, c.inst.owner, x.id)
  }

  function RunOf(s: Whole, c: Course, rs: seq<Round>): Whole
    decreases |rs|
  {
    if rs == [] then s else RunOf(AfterRound(s, c, rs[0]), c, rs[1..])
  }

  /** The clock never goes back, and every pass is a smooth one on the store it finds. */
  ghost predicate SmoothRun(s: Whole, c: Course, rs: seq<Round>, clock: int)
    decreases |rs|
  {
    rs == [] ||
    (&& clock <= rs[0].m.now && Smooth(s, c, rs[0].m) && AllGone(SettledPass(s, c, rs[0].m), c, rs[0].later)
     && SmoothRun(AfterRound(s, c, rs[0]), c, rs[1..], rs[0].m.now))
  }

  lemma LaterWaves(s: Whole, c: Course, exclude: seq<Identity>, later: World)
    requires AllGone(s, c, later)
    ensures Waves(later, s.tracked, c, exclude) <= Waves(s.world, s.tracked, c, exclude)
  {
    var a, b := G.LiveWaves(later, s.tracked, Target(c, exclude)), G.LiveWaves(s.world, s.tracked, Target(c, exclude));
    forall v | v in a
      ensures v in b
    {
      var x :| x in s.tracked && G.Live(later, s.tracked, Target(c, exclude), x.id) && x.syncWave == v;
      assert G.Live(s.world, s.tracked, Target(c, exclude), x.id);
    }
    G.NoMore(a, b);
  }

  /** The passes and the waves that are left. */
  ghost function Distance(s: Whole, c: Course, exclude: seq<Identity>): nat {
    RP.Rank(s.status, c.req, OutcomesOf(c))
    + (if DeletionAhead(s.status, c.req.generation) then Waves(s.world, s.tracked, c, exclude) else 0)
  }

  lemma PassComesNearer(s: Whole, c: Course, m: Meeting, exclude: seq<Identity>, clock: int)
    requires Ready(s, c, exclude, clock) && clock <= m.now && Smooth(s, c, m)
    requires !Processed(s.status, c.req.generation)
    ensures Distance(SettledPass(s, c, m), c, exclude) < Distance(s, c, exclude)
  {
    SmoothInputs(s, c, m, exclude, clock);
    StatusOf(s, c, m);
    RankGoesDown(s.status, c.req, InputsOf(s, c.inst, c.req, m), OutcomesOf(c));
    if DeletionAhead(s.status, c.req.generation) {
      WavesGoDown(s, c, m, exclude, clock);
    }
  }

  lemma StatusOf(s: Whole, c: Course, m: Meeting)
    ensures SettledPass(s, c, m).status == Pass(s.status, c.req, InputsOf(s, c.inst, c.req, m)).status
  {
  }

  lemma RankGoesDown(st: Option<ReinstallStatus>, req: Request, inp: Inputs, out: Outcomes)
    requires st.Some? ==> RS.Sound(st.value, inp.now)
    requires !Processed(st, req.generation) && RP.Stable(inp, out)
    ensures var next := Pass(st, req, inp).status;
            && RP.Rank(next, req, out) <= RP.Rank(st, req, out)
            && (RP.Rank(next, req, out) < RP.Rank(st, req, out)
                || (DeletionAhead(st, req.generation) && RP.WaitsNow(st, req, inp)))
            && (DeletionAhead(next, req.generation) ==> DeletionAhead(st, req.generation))
  {
    RP.PassDropsRank(st, req, inp, out);
    if !DeletionAhead(st, req.generation) {
      AheadIsNotRegained(st, req, inp);
    }
  }

  /** A round leaves everything ready for the next, and brings the request nearer to its end. */
  lemma RoundComesNearer(s: Whole, c: Course, r: Round, exclude: seq<Identity>, clock: int)
    requires Ready(s, c, exclude, clock) && clock <= r.m.now && Smooth(s, c, r.m)
    requires AllGone(SettledPass(s, c, r.m), c, r.later)
    ensures var s' := AfterRound(s, c, r);
            && Ready(s', c, exclude, r.m.now)
            && (if Processed(s.status, c.req.generation) then s'.status == s.status
                else Distance(s', c, exclude) < Distance(s, c, exclude))
  {
    ReadyStays(s, c, r.m, exclude, clock);
    StatusOf(s, c, r.m);
    LaterWaves(SettledPass(s, c, r.m), c, exclude, r.later);
    if !Processed(s.status, c.req.generation) {
      PassComesNearer(s, c, r.m, exclude, clock);
    }
  }

  lemma RoundSucceeds(s: Whole, c: Course, r: Round, exclude: seq<Identity>, clock: int)
    requires Ready(s, c, exclude, clock) && clock <= r.m.now && Smooth(s, c, r.m)
    requires RP.Flawless(c.req, OutcomesOf(c)) && !Processed(s.status, c.req.generation)
    ensures var st := AfterRound(s, c, r).status; Processed(st, c.req.generation) ==> RP.Succeeded(st, c.req.generation)
  {
    StatusOf(s, c, r.m);
    SmoothInputs(s, c, r.m, exclude, clock);
    RP.FlawlessPass(s.status, c.req, InputsOf(s, c.inst, c.req, r.m), OutcomesOf(c));
  }

  lemma {:induction false} EnoughRounds(s: Whole, c: Course, rs: seq<Round>, exclude: seq<Identity>, clock: int)
    requires Ready(s, c, exclude, clock) && SmoothRun(s, c, rs, clock)
    requires Distance(s, c, exclude) <= |rs| || Processed(s.status, c.req.generation)
    ensures Processed(RunOf(s, c, rs).status, c.req.generation)
    decreases |rs|
  {
    if rs != [] {
      RoundComesNearer(s, c, rs[0], exclude, clock);
      EnoughRounds(AfterRound(s, c, rs[0]), c, rs[1..], exclude, rs[0].m.now);
    }
  }

  lemma {:induction false} RoundsSucceed(s: Whole, c: Course, rs: seq<Round>, exclude: seq<Identity>, clock: int)
    requires Ready(s, c, exclude, clock) && SmoothRun(s, c, rs, clock) && RP.Flawless(c.req, OutcomesOf(c))
    requires Processed(s.status, c.req.generation) ==> RP.Succeeded(s.status, c.req.generation)
    ensures var st := RunOf(s, c, rs).status; Processed(st, c.req.generation) ==> RP.Succeeded(st, c.req.generation)
    decreases |rs|
  {
    if rs != [] {
      RoundComesNearer(s, c, rs[0], exclude, clock);
      if !Processed(s.status, c.req.generation) {
        RoundSucceeds(s, c, rs[0], exclude, clock);
      }
      RoundsSucceed(AfterRound(s, c, rs[0]), c, rs[1..], exclude, rs[0].m.now);
    }
  }

  /**
   When no call fails, and before each next pass the tracked objects that are marked for deletion go and none
   is made again, a request is over within 8 + K passes, completed or failed, where K is the number of waves
   of the tracked list that hold an object of this owner, other than the spared ManagedCluster, at the start.
   */
  lemma ReinstallEnds(s: Whole, c: Course, rs: seq<Round>, exclude: seq<Identity>, clock: int)
    requires Ready(s, c, exclude, clock) && SmoothRun(s, c, rs, clock)
    requires |rs| >= 8 + Waves(s.world, s.tracked, c, exclude)
    ensures Processed(RunOf(s, c, rs).status, c.req.generation)
  {
    EnoughRounds(s, c, rs, exclude, clock);
  }

  /** It is completed if the preservation finds what its mode demands. */
  lemma ReinstallCompletes(s: Whole, c: Course, rs: seq<Round>, exclude: seq<Identity>, clock: int)
    requires Ready(s, c, exclude, clock) && SmoothRun(s, c, rs, clock)
    requires RP.Flawless(c.req, OutcomesOf(c)) && !Processed(s.status, c.req.generation)
    requires |rs| >= 8 + Waves(s.world, s.tracked, c, exclude)
    ensures RP.Succeeded(RunOf(s, c, rs).status, c.req.generation)
  {
    ReinstallEnds(s, c, rs, exclude, clock);
    RoundsSucceed(s, c, rs, exclude, clock);
  }
}
