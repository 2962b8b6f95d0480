/**
 What finalizing a reinstall means, and two things it does not mean: that the rendered manifests were
 deleted, and that the request is ever reported as completed.
 */
module ReinstallLaws {
  import opened Kube
  import opened Conditions
  import opened Reinstall
  import opened ReinstallSafety
  import opened ReinstallProgress
  import R = Reimport

  lemma {:induction false} ThroughIff(tasks: seq<Task>, st: ReinstallStatus, req: Request, inp: Inputs)
    ensures RunTasks(tasks, st, req, inp).Through? <==> forall task | task in tasks :: !Stops(RunTask(task, st, req, inp))
    decreases |tasks|
  {
    if tasks != [] {
      TaskEnds(tasks[0], st, req, inp);
      assert forall task :: task in tasks <==> task == tasks[0] || task in tasks[1..];
      if !Stops(RunTask(tasks[0], st, req, inp)) {
        ThroughIff(tasks[1..], st, req, inp);
      }
    }
  }

  lemma TaskList(req: Request)
    ensures forall task: Task :: task in TasksFor(req)
  {
    var ts := TasksFor(req);
    assert ts[0] == Validating && ts[1] == Starting && ts[2] == Labelling && ts[3] == Preserving && ts[4] == Deleting
        && ts[5] == Restoring;
    forall task: Task
      ensures task in ts
    {
      match task
      case Validating => assert ts[0] in ts;
      case Starting => assert ts[1] in ts;
      case Labelling => assert ts[2] in ts;
      case Preserving => assert ts[3] in ts;
      case Deleting => assert ts[4] in ts;
      case Restoring => assert ts[5] in ts;
    }
  }

  /** The deletion is over, one way or the other. */
  predicate DeletionClosed(st: ReinstallStatus) {
    var reason := ReasonOf(st, ManifestsDeleted);
    reason == Some(Failed) || reason == Some(Completed)
  }

  predicate BackedUpFor(st: ReinstallStatus, req: Request, inp: Inputs) {
    var (c, d, error) := BackupSummary(req.mode, inp.out, inp.now);
    error.None? && Says(Find(st.conditions, DataBackedUp), c) && Says(Find(st.conditions, IdentityDetected), d)
  }

  predicate RestoredFor(st: ReinstallStatus, req: Request, inp: Inputs) {
    var (c, error) := RestoreSummary(req.mode, inp.out, inp.now);
    error.None? && Says(Find(st.conditions, DataRestored), c)
  }

  predicate ValidatedFor(st: ReinstallStatus, inp: Inputs) {
    && inp.out.allowed
    && Says(Find(st.conditions, RequestValidated), Condition(RequestValidated, ConditionTrue, Completed, "valid", inp.now))
  }

  lemma ValidateStops(st: ReinstallStatus, inp: Inputs)
    ensures !Stops(Validate(st, inp)) <==> ValidatedFor(st, inp)
  {
    MetaSetSame(st.conditions, Condition(RequestValidated, ConditionTrue, Completed, "valid", inp.now));
  }

  lemma BackupKinds(req: Request, out: Outcomes, now: int)
    ensures var (c, d, _) := BackupSummary(req.mode, out, now); c.kind == DataBackedUp && d.kind == IdentityDetected
  {
  }

  lemma PreserveStops(st: ReinstallStatus, req: Request, inp: Inputs)
    ensures !Stops(PreserveData(st, req, inp)) <==> BackedUpFor(st, req, inp)
  {
    var (c, d, error) := BackupSummary(req.mode, inp.out, inp.now);
    BackupKinds(req, inp.out, inp.now);
    WritesTwice(st, c, d);
  }

  lemma WritesTwice(st: ReinstallStatus, c: Condition, d: Condition)
    requires c.kind == DataBackedUp && d.kind == IdentityDetected
    ensures With(With(st, c), d) == st <==> Says(Find(st.conditions, DataBackedUp), c) && Says(Find(st.conditions, IdentityDetected), d)
  {
    TwoWrites(st.conditions, c, d);
  }

  lemma RestoreStops(st: ReinstallStatus, req: Request, inp: Inputs)
    ensures !Stops(RestoreData(st, req, inp)) <==> RestoredFor(st, req, inp)
  {
    MetaSetSame(st.conditions, RestoreSummary(req.mode, inp.out, inp.now).0);
  }

  lemma DeleteStops(st: ReinstallStatus, inp: Inputs)
    ensures !Stops(DeleteManifests(st, inp)) <==> inp.out.cluster.None? && DeletionClosed(st)
  {
    var (c, _) := DeletionSummary(st, inp.out, inp.now);
    if c.Some? {
      MetaSetSame(st.conditions, c.value);
    }
  }

  /** When a task lets the pass go on. */
  predicate Settled(task: Task, st: ReinstallStatus, req: Request, inp: Inputs) {
    match task
    case Validating => ValidatedFor(st, inp)
    case Starting => st.start.Some?
    case Labelling => inp.out.labels.None?
    case Preserving => BackedUpFor(st, req, inp)
    case Deleting => inp.out.cluster.None? && DeletionClosed(st)
    case Restoring => RestoredFor(st, req, inp)
  }

  lemma TaskStops(task: Task, st: ReinstallStatus, req: Request, inp: Inputs)
    ensures !Stops(RunTask(task, st, req, inp)) <==> Settled(task, st, req, inp)
  {
    match task
    case Validating => ValidateStops(st, inp);
    case Preserving => PreserveStops(st, req, inp);
    case Deleting => DeleteStops(st, inp);
    case Restoring => RestoreStops(st, req, inp);
    case _ =>
  }

  /**
   A pass comes to finalizing exactly when reinstalls are enabled and the request is marked valid, its
   secrets are labelled, the data is backed up, the deletion is over, finished or failed, and the data
   is restored, all of it already on record.
   */
  lemma FinalizesIff(st: ReinstallStatus, req: Request, inp: Inputs)
    requires Working(st, req)
    ensures Work(st, req, inp).stage == Finalizing <==>
            && ValidatedFor(st, inp) && st.start.Some? && inp.out.labels.None? && BackedUpFor(st, req, inp)
            && inp.out.cluster.None? && DeletionClosed(st) && RestoredFor(st, req, inp)
  {
    ThroughIff(TasksFor(req), st, req, inp);
    TaskList(req);
    forall task: Task {
      TaskStops(task, st, req, inp);
    }
    StageOfWork(st, req, inp);
    AllSettled(st, req, inp);
  }

  lemma AllSettled(st: ReinstallStatus, req: Request, inp: Inputs)
    ensures (forall task: Task :: Settled(task, st, req, inp)) <==>
            && ValidatedFor(st, inp) && st.start.Some? && inp.out.labels.None? && BackedUpFor(st, req, inp)
            && inp.out.cluster.None? && DeletionClosed(st) && RestoredFor(st, req, inp)
  {
    assert Settled(Validating, st, req, inp) <==> ValidatedFor(st, inp);
    assert Settled(Starting, st, req, inp) <==> st.start.Some?;
    assert Settled(Labelling, st, req, inp) <==> inp.out.labels.None?;
    assert Settled(Preserving, st, req, inp) <==> BackedUpFor(st, req, inp);
    assert Settled(Deleting, st, req, inp) <==> inp.out.cluster.None? && DeletionClosed(st);
    assert Settled(Restoring, st, req, inp) <==> RestoredFor(st, req, inp);
  }

  lemma StageOfWork(st: ReinstallStatus, req: Request, inp: Inputs)
    ensures Work(st, req, inp).stage ==
            match RunTasks(TasksFor(req), st, req, inp)
            case Through(_) => Finalizing
            case Stopped(task, _) => AtTask(task)
  {
    TasksEnd(TasksFor(req), st, req, inp);
  }

  // ----- The deletion condition --------------------------------------------------------------

  function Deletion(st: ReinstallStatus): Option<Condition> {
    Find(st.conditions, ManifestsDeleted)
  }

  lemma PreserveKeepsDeletion(st: ReinstallStatus, req: Request, inp: Inputs)
    ensures Deletion(PreserveData(st, req, inp).status) == Deletion(st)
  {
    var (c, d, _) := BackupSummary(req.mode, inp.out, inp.now);
    BackupKinds(req, inp.out, inp.now);
    FindMetaSet(st.conditions, c, ManifestsDeleted);
    FindMetaSet(With(st, c).conditions, d, ManifestsDeleted);
  }

  lemma ValidateKeepsDeletion(st: ReinstallStatus, inp: Inputs)
    ensures Deletion(Validate(st, inp).status) == Deletion(st)
  {
    if inp.out.allowed {
      FindMetaSet(st.conditions, Condition(RequestValidated, ConditionTrue, Completed, "valid", inp.now), ManifestsDeleted);
    } else {
      FindMetaSet(st.conditions, Condition(RequestValidated, ConditionFalse, Failed, "disabled", inp.now), ManifestsDeleted);
    }
  }

  lemma RestoreKeepsDeletion(st: ReinstallStatus, req: Request, inp: Inputs)
    ensures Deletion(RestoreData(st, req, inp).status) == Deletion(st)
  {
    var c := RestoreSummary(req.mode, inp.out, inp.now).0;
    assert c.kind == DataRestored;
    FindMetaSet(st.conditions, c, ManifestsDeleted);
  }

  lemma TaskKeepsDeletion(task: Task, st: ReinstallStatus, req: Request, inp: Inputs)
    requires task != Deleting
    ensures Deletion(RunTask(task, st, req, inp).status) == Deletion(st)
  {
    match task
    case Validating =>
      ValidateKeepsDeletion(st, inp);
    case Preserving =>
      PreserveKeepsDeletion(st, req, inp);
    case Restoring =>
      RestoreKeepsDeletion(st, req, inp);
    case _ =>
  }

  lemma CloseDeletion(r: TaskResult, c: Condition, ends: bool, pauses: bool, inp: Inputs, stage: Stage)
    requires c.kind == RequestProcessed
    ensures var s := CloseWith(r, c, ends, pauses, inp, stage).status;
            s.Some? && (Deletion(s.value) == Deletion(r.stored) || Deletion(s.value) == Deletion(r.status))
  {
    FindMetaSet(r.status.conditions, c, ManifestsDeleted);
  }

  /** What a pass at work does to the deletion condition. */
  ghost predicate DeletionStep(st: ReinstallStatus, s: ReinstallStatus, inp: Inputs, stage: Stage) {
    || Deletion(s) == Deletion(st)
    || (stage == AtTask(Deleting) && Deletion(s) == Deletion(DeleteManifests(st, inp).status))
  }

  lemma StoppedDeletion(task: Task, st: ReinstallStatus, req: Request, inp: Inputs)
    requires RunTasks(TasksFor(req), st, req, inp) == Stopped(task, RunTask(task, st, req, inp))
    requires Stops(RunTask(task, st, req, inp))
    ensures var o := Work(st, req, inp);
            o.status.Some? && DeletionStep(st, o.status.value, inp, o.stage)
  {
    var r := RunTask(task, st, req, inp);
    TaskEnds(task, st, req, inp);
    if task != Deleting {
      TaskKeepsDeletion(task, st, req, inp);
    }
    if r.requeue {
      CloseDeletion(r, Overall(ConditionFalse, InProgress, Description(task), inp.now), false, false, inp, AtTask(task));
    } else {
      CloseDeletion(r, Overall(ConditionFalse, Failed, Description(task) + ": " + r.error.value, inp.now),
                    EndsRequest(task), !EndsRequest(task), inp, AtTask(task));
    }
  }

  lemma ThroughDeletion(st: ReinstallStatus, req: Request, inp: Inputs)
    requires RunTasks(TasksFor(req), st, req, inp) == Through(st)
    ensures var o := Work(st, req, inp);
            o.status.Some? && Deletion(o.status.value) == Deletion(st)
  {
    WorkThrough(st, req, inp);
    FinalizeKeepsDeletion(st, req, inp);
    var r := Finalize(st, req, inp);
    CloseDeletion(r, FinalCondition(r, inp.now), false, false, inp, Finalizing);
  }

  lemma FinalizeKeepsDeletion(st: ReinstallStatus, req: Request, inp: Inputs)
    ensures var r := Finalize(st, req, inp); Deletion(r.stored) == Deletion(st) && Deletion(r.status) == Deletion(st)
  {
  }

  lemma WorkDeletion(st: ReinstallStatus, req: Request, inp: Inputs)
    ensures var o := Work(st, req, inp);
            o.status.Some? && DeletionStep(st, o.status.value, inp, o.stage)
  {
    TasksEnd(TasksFor(req), st, req, inp);
    var p := RunTasks(TasksFor(req), st, req, inp);
    if p.Stopped? {
      StoppedDeletion(p.task, st, req, inp);
    } else {
      ThroughDeletion(st, req, inp);
    }
  }

  /** The status belongs to a request for this generation, which has been taken up. */
  predicate TakenUp(st: Option<ReinstallStatus>, generation: string) {
    Processed(st, generation) || !NeedsInit(st, generation)
  }

  lemma CloseStays(r: TaskResult, c: Condition, ends: bool, pauses: bool, inp: Inputs, stage: Stage, generation: string)
    requires c.kind == RequestProcessed
    requires r.stored.observed == generation ||
             (r.stored.inProgress == generation && Find(r.stored.conditions, RequestProcessed).Some?)
    requires Find(r.status.conditions, RequestProcessed) == Find(r.stored.conditions, RequestProcessed)
    ensures TakenUp(CloseWith(r, c, ends, pauses, inp, stage).status, generation)
  {
    CloseEffect(r, c, ends, pauses, inp, stage);
  }

  lemma WorkStays(st: ReinstallStatus, req: Request, inp: Inputs)
    requires Sound(st, inp.now) && Working(st, req)
    ensures TakenUp(Work(st, req, inp).status, req.generation)
  {
    TasksEnd(TasksFor(req), st, req, inp);
    match RunTasks(TasksFor(req), st, req, inp)
    case Stopped(task, r) =>
      TaskIsSound(task, st, req, inp);
      if r.requeue {
        CloseStays(r, Overall(ConditionFalse, InProgress, Description(task), inp.now), false, false, inp, AtTask(task), req.generation);
      } else {
        CloseStays(r, Overall(ConditionFalse, Failed, Description(task) + ": " + r.error.value, inp.now),
                   EndsRequest(task), !EndsRequest(task), inp, AtTask(task), req.generation);
      }
    case Through(_) =>
      var r := Finalize(st, req, inp);
      WorkThrough(st, req, inp);
      CloseStays(r, FinalCondition(r, inp.now), false, false, inp, Finalizing, req.generation);
  }

  predicate Deletes(st: Option<ReinstallStatus>, step: Step) {
    step.Process? && CallsNow(st, step.req, step.inp)
  }

  /** Every pass of the run is for this generation. */
  ghost predicate SameRequest(steps: seq<Step>, generation: string) {
    forall step | step in steps && step.Process? :: step.req.generation == generation
  }

  /** Announcing, finishing or failing: what the deletion task may leave. */
  lemma DeleteLeaves(st: ReinstallStatus, inp: Inputs)
    ensures var r := DeleteManifests(st, inp);
            && (DeletionClosed(st) ==> DeletionClosed(r.status))
            && (ReasonOf(r.status, ManifestsDeleted) == Some(Completed) ==>
                  || ReasonOf(st, ManifestsDeleted) == Some(Completed)
                  || (DeletionCalled(st, inp.out) && inp.out.deletion == Finished))
  {
    var (c, _) := DeletionSummary(st, inp.out, inp.now);
    if c.Some? {
      FindMetaSet(st.conditions, c.value, ManifestsDeleted);
    }
  }

  lemma BegunKeepsDeletion(st: ReinstallStatus, req: Request, now: int)
    ensures Deletion(Begun(st, req, now)) == Deletion(st)
    ensures Find(Begun(st, req, now).conditions, RequestProcessed).Some?
  {
    var c := Overall(ConditionFalse, InProgress, "for " + req.generation, now);
    FindMetaSet(st.conditions, c, ManifestsDeleted);
    FindMetaSet(st.conditions, c, RequestProcessed);
  }

  lemma ClosedStays(st: Option<ReinstallStatus>, step: Step, generation: string)
    requires st.Some? && Sound(st.value, Time(step)) && TakenUp(st, generation) && DeletionClosed(st.value)
    requires step.Process? ==> step.req.generation == generation
    ensures !Deletes(st, step)
    ensures var s := Next(st, step);
            s.Some? && TakenUp(s, generation) && DeletionClosed(s.value)
  {
    match step
    case Process(req, inp) =>
      if Processed(st, generation) {
      } else if ReasonOf(st.value, RequestProcessed) == Some(Initialized) {
        BegunKeepsDeletion(st.value, req, inp.now);
      } else {
        WorkDeletion(st.value, req, inp);
        WorkStays(st.value, req, inp);
        DeleteLeaves(st.value, inp);
      }
    case Reimport(c, _) =>
      FindMetaSet(st.value.conditions, c, RequestProcessed);
      FindMetaSet(st.value.conditions, c, ManifestsDeleted);
  }

  /**
   Once the deletion is over for a request, even if it failed, no later pass for that request deletes
   rendered manifests again.
   */
  lemma {:induction false} DeletionIsNotResumed(st: Option<ReinstallStatus>, steps: seq<Step>, generation: string, clock: int, i: nat)
    requires st.Some? && Sound(st.value, clock) && TakenUp(st, generation) && DeletionClosed(st.value)
    requires Timely(steps, clock) && SameRequest(steps, generation) && i < |steps|
    ensures !Deletes(Run(st, steps[..i]), steps[i])
    decreases |steps|
  {
    var step := steps[0];
    assert step in steps;
    SoundLater(st.value, clock, Time(step));
    ClosedStays(st, step, generation);
    if i == 0 {
      assert steps[..0] == [];
    } else {
      if step.Process? {
        PassIsSound(st, step.req, step.inp);
      } else {
        FindMetaSet(st.value.conditions, step.c, RequestProcessed);
      }
      assert steps[..i][1..] == steps[1..][..i - 1];
      DeletionIsNotResumed(Next(st, step), steps[1..], generation, Time(step), i - 1);
    }
  }

  lemma SoundLater(st: ReinstallStatus, clock: int, later: int)
    requires Sound(st, clock) && clock <= later
    ensures Sound(st, later)
  {
  }

  lemma WentWrongLeaves(st: ReinstallStatus, inp: Inputs)
    requires DeletionCalled(st, inp.out) && inp.out.deletion.WentWrong? && inp.patches.task
    ensures var r := DeleteManifests(st, inp);
            && r.stored == r.status && !r.requeue && r.error.Some?
            && ReasonOf(r.status, ManifestsDeleted) == Some(Failed)
  {
    var c := DeletionState(ConditionFalse, Failed, inp.out.deletion.error, inp.now);
    FindMetaSet(st.conditions, c, ManifestsDeleted);
  }

  lemma WorkPauses(st: ReinstallStatus, req: Request, inp: Inputs, r: TaskResult)
    requires RunTasks(TasksFor(req), st, req, inp) == Stopped(Deleting, r) && !r.requeue && r.error.Some?
    ensures Work(st, req, inp) ==
            CloseWith(r, Overall(ConditionFalse, Failed, Description(Deleting) + ": " + r.error.value, inp.now),
                      false, true, inp, AtTask(Deleting))
  {
  }

  lemma DeletesAtDeleting(st: ReinstallStatus, req: Request, inp: Inputs)
    requires CallsNow(Some(st), req, inp)
    ensures Pass(Some(st), req, inp) == Work(st, req, inp)
    ensures RunTasks(TasksFor(req), st, req, inp) == Stopped(Deleting, DeleteManifests(st, inp))
  {
    AtWork(st, req, inp);
    StageOfWork(st, req, inp);
    TasksEnd(TasksFor(req), st, req, inp);
  }

  lemma AtWork(st: ReinstallStatus, req: Request, inp: Inputs)
    requires Pass(Some(st), req, inp).stage.AtTask?
    ensures Pass(Some(st), req, inp) == Work(st, req, inp)
  {
  }

  lemma CloseFails(r: TaskResult, c: Condition, ends: bool, pauses: bool, inp: Inputs, stage: Stage)
    requires pauses ==> r.error.Some?
    ensures var o := CloseWith(r, c, ends, pauses, inp, stage); o.paused ==> o.failed
  {
  }

  lemma WorkFails(st: ReinstallStatus, req: Request, inp: Inputs)
    ensures var o := Work(st, req, inp); o.paused ==> o.failed
  {
    TasksEnd(TasksFor(req), st, req, inp);
    match RunTasks(TasksFor(req), st, req, inp)
    case Stopped(task, r) =>
      if r.requeue {
        CloseFails(r, Overall(ConditionFalse, InProgress, Description(task), inp.now), false, false, inp, AtTask(task));
      } else {
        CloseFails(r, Overall(ConditionFalse, Failed, Description(task) + ": " + r.error.value, inp.now),
                   EndsRequest(task), !EndsRequest(task), inp, AtTask(task));
      }
    case Through(_) =>
      WorkThrough(st, req, inp);
      CloseFails(Finalize(st, req, inp), FinalCondition(Finalize(st, req, inp), inp.now), false, false, inp, Finalizing);
  }

  /** A pass that pauses the instance answers with an error. */
  lemma PauseFails(st: Option<ReinstallStatus>, req: Request, inp: Inputs)
    ensures var o := Pass(st, req, inp); o.paused ==> o.failed
  {
    if st.Some? {
      WorkFails(st.value, req, inp);
    }
  }

  /** A failed deletion closes the deletion, pauses the instance and leaves the request open. */
  lemma FailureClosesDeletion(st: ReinstallStatus, req: Request, inp: Inputs)
    requires Sound(st, inp.now) && Working(st, req) && CallsNow(Some(st), req, inp)
    requires inp.out.deletion.WentWrong? && inp.patches == Patches(true, true, true) && req.generation != ""
    ensures var o := Pass(Some(st), req, inp);
            && o.paused && o.status.Some? && ReasonOf(o.status.value, ManifestsDeleted) == Some(Failed)
            && TakenUp(o.status, req.generation) && !Processed(o.status, req.generation)
  {
    DeletesAtDeleting(st, req, inp);
    WentWrongLeaves(st, inp);
    TaskIsSound(Deleting, st, req, inp);
    var r := DeleteManifests(st, inp);
    WorkPauses(st, req, inp, r);
    FailedAndPaused(r, req, inp);
  }

  lemma FailedAndPaused(r: TaskResult, req: Request, inp: Inputs)
    requires r.stored == r.status && !r.requeue && r.error.Some? && inp.patches == Patches(true, true, true)
    requires r.stored.inProgress == req.generation && r.stored.observed != req.generation && r.stored.end.None?
    ensures var c := Overall(ConditionFalse, Failed, Description(Deleting) + ": " + r.error.value, inp.now);
            var o := CloseWith(r, c, false, true, inp, AtTask(Deleting));
            && o.paused && o.status.Some? && Deletion(o.status.value) == Deletion(r.stored)
            && TakenUp(o.status, req.generation) && !Processed(o.status, req.generation)
  {
    var c := Overall(ConditionFalse, Failed, Description(Deleting) + ": " + r.error.value, inp.now);
    CloseAll(r, c, false, true, inp, AtTask(Deleting));
    FindMetaSet(r.stored.conditions, c, ManifestsDeleted);
    FindMetaSet(r.stored.conditions, c, RequestProcessed);
  }

  /**
   So completion does not mean that everything was deleted: after a deletion that failed, the passes that
   follow once the pause is lifted complete the request without deleting anything more.
   */
  lemma FailedDeletionStillCompletes(st: ReinstallStatus, req: Request, failing: Inputs, inps: seq<Inputs>, out: Outcomes)
    requires Sound(st, failing.now) && Working(st, req) && CallsNow(Some(st), req, failing)
    requires failing.out.deletion.WentWrong? && failing.patches == Patches(true, true, true)
    requires Flawless(req, out) && AllStable(inps, out, failing.now) && |inps| >= 8
    ensures var s := Pass(Some(st), req, failing).status;
            && s.Some? && ReasonOf(s.value, ManifestsDeleted) == Some(Failed)
            && Succeeded(Passes(s, req, inps, []), req.generation)
            && forall steps, i: nat | i < |steps| && Timely(steps, failing.now) && SameRequest(steps, req.generation) ::
                 !Deletes(Run(s, steps[..i]), steps[i])
  {
    var s := Pass(Some(st), req, failing).status;
    FailureClosesDeletion(st, req, failing);
    PassIsSound(Some(st), req, failing);
    ReinstallEnds(s, req, inps, [], out, failing.now);
    FlawlessRun(s, req, inps, [], out, failing.now);
    forall steps, i: nat | i < |steps| && Timely(steps, failing.now) && SameRequest(steps, req.generation)
      ensures !Deletes(Run(s, steps[..i]), steps[i])
    {
      DeletionIsNotResumed(s, steps, req.generation, failing.now, i);
    }
  }

  predicate ReportsDeleted(st: Option<ReinstallStatus>) {
    st.Some? && ReasonOf(st.value, ManifestsDeleted) == Some(Completed)
  }

  predicate FinishesDeletion(st: Option<ReinstallStatus>, step: Step) {
    Deletes(st, step) && step.inp.out.deletion == Finished
  }

  lemma ReportsTruly(st: Option<ReinstallStatus>, step: Step)
    requires ReportsDeleted(Next(st, step)) && !ReportsDeleted(st)
    ensures FinishesDeletion(st, step)
  {
    match step
    case Process(req, inp) =>
      if Processed(st, req.generation) {
      } else if NeedsInit(st, req.generation) {
        var news := InitialConditions(inp.now);
        assert news[4].kind == ManifestsDeleted && news[4] in news;
        SetAllFinds(Cleared(st, req.generation).conditions, news, ManifestsDeleted);
      } else if ReasonOf(st.value, RequestProcessed) == Some(Initialized) {
        BegunKeepsDeletion(st.value, req, inp.now);
      } else {
        WorkDeletion(st.value, req, inp);
        DeleteLeaves(st.value, inp);
      }
    case Reimport(c, _) =>
      if st.Some? {
        FindMetaSet(st.value.conditions, c, ManifestsDeleted);
      }
  }

  /** The deletion is reported as completed only if some pass of the run called it and saw it finish. */
  lemma {:induction false} DeletedMeansFinished(st: Option<ReinstallStatus>, steps: seq<Step>) returns (i: nat)
    requires ReportsDeleted(Run(st, steps)) && !ReportsDeleted(st)
    ensures i < |steps| && FinishesDeletion(Run(st, steps[..i]), steps[i])
    decreases |steps|
  {
    var next := Next(st, steps[0]);
    if ReportsDeleted(next) {
      ReportsTruly(st, steps[0]);
      assert steps[..0] == [];
      i := 0;
    } else {
      var k := DeletedMeansFinished(next, steps[1..]);
      assert steps[..k + 1][1..] == steps[1..][..k];
      i := k + 1;
    }
  }

  // ----- Reporting ---------------------------------------------------------------------------

  predicate Reported(st: Option<ReinstallStatus>) {
    st.Some? && IsTrue(st.value.conditions, RequestProcessed)
  }

  /** A finalized request is reported as completed exactly when the second patch of its pass gets through. */
  lemma ReportedIff(st: ReinstallStatus, req: Request, inp: Inputs)
    requires Sound(st, inp.now) && Working(st, req) && Work(st, req, inp).stage == Finalizing && req.generation != ""
    requires inp.out.cleanup.None? && inp.out.diff.None? && inp.patches.task
    ensures var s := Work(st, req, inp).status;
            && s.Some? && s.value.observed == req.generation
            && (Reported(s) <==> inp.patches.closing)
  {
    StageOfWork(st, req, inp);
    TasksEnd(TasksFor(req), st, req, inp);
    var c := Overall(ConditionTrue, Completed, "done", inp.now);
    FindMetaSet(st.conditions, c, RequestProcessed);
  }

  /** If it is not, no later pass for the request makes up for it, and the reimport machine never acts. */
  lemma {:induction false} LostReportIsFinal(st: Option<ReinstallStatus>, steps: seq<Step>, generation: string,
                                             instance: seq<Condition>, met: R.Inputs)
    requires st.Some? && st.value.observed == generation && !Reported(st)
    requires SameRequest(steps, generation)
    ensures var s := Run(st, steps);
            && s.Some? && s.value.observed == generation && !Reported(s)
            && !R.Decide(R.State(s.value.observed, s.value.conditions, instance), met).tried
    decreases |steps|
  {
    if steps != [] {
      assert steps[0] in steps;
      if steps[0].Reimport? {
        FindMetaSet(st.value.conditions, steps[0].c, RequestProcessed);
      }
      LostReportIsFinal(Next(st, steps[0]), steps[1..], generation, instance, met);
    }
  }
}
