/**
 What the preservation mode demands of a reinstall: what has to be backed up before anything is deleted,
 what has to be restored before the request is finalized, and what the conditions say of it.
 */
module ReinstallDemands {
  import opened Kube
  import opened Conditions
  import opened Reinstall
  import opened ReinstallSafety
  import opened ReinstallProgress
  import opened ReinstallLaws
  import RP = ReinstallPass
  import P = Preservation

  /** The backup fails, is not counted, or lacks the identity data that mode ClusterIdentity demands. */
  predicate BackupLacks(mode: P.Mode, out: Outcomes) {
    mode != P.NoPreservation &&
    (out.backup.Some? || out.preserved.Uncounted? || (mode == P.ClusterIdentity && out.preserved.identity == 0))
  }

  /** The restore fails, is not counted, or brings nothing back in mode ClusterIdentity. */
  predicate RestoreLacks(mode: P.Mode, out: Outcomes) {
    mode != P.NoPreservation &&
    (out.restore.Some? || out.restored.Uncounted?
     || (mode == P.ClusterIdentity && out.restored.identity == 0 && out.restored.others == 0))
  }

  lemma BackupFailsIff(mode: P.Mode, out: Outcomes, now: int)
    ensures BackupSummary(mode, out, now).2.Some? <==> BackupLacks(mode, out)
  {
  }

  lemma RestoreFailsIff(mode: P.Mode, out: Outcomes, now: int)
    ensures RestoreSummary(mode, out, now).1.Some? <==> RestoreLacks(mode, out)
  {
  }

  // ----- No deletion without a backup --------------------------------------------------------

  lemma LackingStops(st: ReinstallStatus, req: Request, inp: Inputs)
    ensures BackupLacks(req.mode, inp.out) ==> Stops(RunTask(Preserving, st, req, inp))
    ensures RestoreLacks(req.mode, inp.out) ==> Stops(RunTask(Restoring, st, req, inp))
  {
    BackupFailsIff(req.mode, inp.out, inp.now);
    RestoreFailsIff(req.mode, inp.out, inp.now);
    TaskStops(Preserving, st, req, inp);
    TaskStops(Restoring, st, req, inp);
  }

  lemma StopsBefore(st: ReinstallStatus, req: Request, inp: Inputs)
    requires Stops(RunTask(Preserving, st, req, inp))
    ensures var p := RunTasks(TasksFor(req), st, req, inp); p.Stopped? && p.task != Deleting && p.task != Restoring
  {
    ThroughIff(TasksFor(req), st, req, inp);
    TaskList(req);
    var p := RunTasks(TasksFor(req), st, req, inp);
    if p.task == Deleting {
      RP.StoppedAtDeleting(st, req, inp);
    } else if p.task == Restoring {
      StoppedAtRestoring(st, req, inp);
    }
  }

  lemma StoppedAtRestoring(st: ReinstallStatus, req: Request, inp: Inputs)
    requires RunTasks(TasksFor(req), st, req, inp).Stopped? && RunTasks(TasksFor(req), st, req, inp).task == Restoring
    ensures !Stops(RunTask(Preserving, st, req, inp))
  {
    var ts := TasksFor(req);
    assert ts[5] == Restoring && ts[3] == Preserving;
    RP.PassedOver(ts, st, req, inp, 5);
    assert !Stops(RunTask(ts[3], st, req, inp));
  }

  lemma StageOfPass(st: Option<ReinstallStatus>, req: Request, inp: Inputs)
    ensures var stage := Pass(st, req, inp).stage;
            stage == Idle || stage == Initializing || stage == Beginning || (st.Some? && stage == Work(st.value, req, inp).stage)
  {
  }

  lemma WorkWithoutBackup(st: ReinstallStatus, req: Request, inp: Inputs)
    requires BackupLacks(req.mode, inp.out)
    ensures var stage := Work(st, req, inp).stage;
            stage != AtTask(Deleting) && stage != AtTask(Restoring) && stage != Finalizing
  {
    LackingStops(st, req, inp);
    StopsBefore(st, req, inp);
    StageOfWork(st, req, inp);
  }

  lemma WorkWithoutRestore(st: ReinstallStatus, req: Request, inp: Inputs)
    requires RestoreLacks(req.mode, inp.out)
    ensures Work(st, req, inp).stage != Finalizing
  {
    LackingStops(st, req, inp);
    ThroughIff(TasksFor(req), st, req, inp);
    TaskList(req);
    StageOfWork(st, req, inp);
  }

  /** While the backup lacks something, no pass calls the deletion, restores anything or finalizes. */
  lemma NoDeletionWithoutBackup(st: Option<ReinstallStatus>, req: Request, inp: Inputs)
    requires BackupLacks(req.mode, inp.out)
    ensures !CallsNow(st, req, inp)
    ensures var stage := Pass(st, req, inp).stage;
            stage != AtTask(Deleting) && stage != AtTask(Restoring) && stage != Finalizing
  {
    StageOfPass(st, req, inp);
    if st.Some? {
      WorkWithoutBackup(st.value, req, inp);
    }
  }

  /** While the restore lacks something, no pass finalizes. */
  lemma NotFinalizedWithoutRestore(st: Option<ReinstallStatus>, req: Request, inp: Inputs)
    requires RestoreLacks(req.mode, inp.out)
    ensures Pass(st, req, inp).stage != Finalizing
  {
    StageOfPass(st, req, inp);
    if st.Some? {
      WorkWithoutRestore(st.value, req, inp);
    }
  }

  // ----- Such a request fails ----------------------------------------------------------------

  /** The request is over, has failed and is not recorded. */
  predicate EndedAsFailed(st: Option<ReinstallStatus>, generation: string) {
    && st.Some? && st.value.inProgress == generation && st.value.observed != generation && st.value.end.Some?
    && var c := Find(st.value.conditions, RequestProcessed);
       c.Some? && c.value.status == ConditionFalse && c.value.reason == Failed
  }

  predicate Unrecorded(st: Option<ReinstallStatus>, generation: string) {
    st.Some? ==> st.value.observed != generation
  }

  lemma StaysUnrecorded(st: Option<ReinstallStatus>, req: Request, inp: Inputs)
    requires req.generation != "" && Unrecorded(st, req.generation) && Pass(st, req, inp).stage != Finalizing
    ensures Unrecorded(Pass(st, req, inp).status, req.generation)
  {
    if st.Some? && Pass(st, req, inp) == Work(st.value, req, inp) {
      UnrecordedWork(st.value, req, inp);
    }
  }

  lemma UnrecordedWork(st: ReinstallStatus, req: Request, inp: Inputs)
    requires Work(st, req, inp).stage != Finalizing
    ensures var s := Work(st, req, inp).status; s.Some? && s.value.observed == st.observed
  {
    StageOfWork(st, req, inp);
    TasksEnd(TasksFor(req), st, req, inp);
    var p := RunTasks(TasksFor(req), st, req, inp);
    TaskChanges(p.task, st, req, inp);
    TaskEnds(p.task, st, req, inp);
    if p.result.requeue {
      KeepsObserved(p.result, Overall(ConditionFalse, InProgress, Description(p.task), inp.now), false, false, inp, AtTask(p.task));
    } else {
      KeepsObserved(p.result, Overall(ConditionFalse, Failed, Description(p.task) + ": " + p.result.error.value, inp.now),
                    EndsRequest(p.task), !EndsRequest(p.task), inp, AtTask(p.task));
    }
  }

  lemma KeepsObserved(r: TaskResult, c: Condition, ends: bool, pauses: bool, inp: Inputs, stage: Stage)
    ensures var s := CloseWith(r, c, ends, pauses, inp, stage).status; s.Some? && s.value.observed == r.stored.observed
  {
  }

  lemma OverMeansFailed(st: Option<ReinstallStatus>, generation: string, clock: int)
    requires Processed(st, generation) && Unrecorded(st, generation) && generation != ""
    requires Sound(st.value, clock)
    ensures EndedAsFailed(st, generation)
  {
  }

  predicate Lacks(mode: P.Mode, out: Outcomes) {
    BackupLacks(mode, out) || RestoreLacks(mode, out)
  }

  lemma {:induction false} LackingRun(st: Option<ReinstallStatus>, req: Request, inps: seq<Inputs>, answers: seq<bool>,
                                      out: Outcomes, clock: int)
    requires st.Some? ==> Sound(st.value, clock)
    requires AllStable(inps, out, clock) && Lacks(req.mode, out) && Unrecorded(st, req.generation) && req.generation != ""
    ensures var s := Passes(st, req, inps, answers);
            Unrecorded(s, req.generation) && (s.Some? ==> exists later :: Sound(s.value, later))
    decreases |inps|
  {
    if inps == [] {
      assert st.Some? ==> Sound(st.value, clock);
    } else {
      var inp := WithAnswer(inps[0], answers == [] || answers[0]);
      PassIsSound(st, req, inp);
      if BackupLacks(req.mode, out) {
        NoDeletionWithoutBackup(st, req, inp);
      } else {
        NotFinalizedWithoutRestore(st, req, inp);
      }
      StaysUnrecorded(st, req, inp);
      LackingRun(Pass(st, req, inp).status, req, inps[1..],
                 if CallsNow(st, req, inp) && answers != [] then answers[1..] else answers, out, inp.now);
    }
  }

  /**
   A request whose backup or restore lacks what its mode demands, pass after pass, ends as failed: within
   8 passes and one for each time the deletion has to wait.
   */
  lemma LackingEndsAsFailed(st: Option<ReinstallStatus>, req: Request, inps: seq<Inputs>, answers: seq<bool>, out: Outcomes, clock: int)
    requires st.Some? ==> Sound(st.value, clock)
    requires req.generation != "" && Unrecorded(st, req.generation) && Lacks(req.mode, out)
    requires AllStable(inps, out, clock) && |inps| >= 8 + Refusals(answers)
    ensures EndedAsFailed(Passes(st, req, inps, answers), req.generation)
  {
    ReinstallEnds(st, req, inps, answers, out, clock);
    LackingRun(st, req, inps, answers, out, clock);
    var s := Passes(st, req, inps, answers);
    var later :| Sound(s.value, later);
    OverMeansFailed(s, req.generation, later);
  }

  // ----- What is on record when the request is finalized -------------------------------------

  function Total(t: Tally): nat {
    if t.Uncounted? then 0 else t.identity + t.others
  }

  /** The condition has the status and the reason. */
  predicate Stands(st: ReinstallStatus, kind: ConditionType, status: ConditionStatus, reason: Reason) {
    var c := Find(st.conditions, kind);
    c.Some? && c.value.status == status && c.value.reason == reason
  }

  /**
   A pass finalizes only when the conditions tell the truth about the data: backed up and restored exactly if
   there was any and a mode asked for it, the identity detected exactly if identity data was counted.
   */
  lemma FinalizedOnRecord(st: ReinstallStatus, req: Request, inp: Inputs)
    requires Working(st, req) && Work(st, req, inp).stage == Finalizing
    ensures !Lacks(req.mode, inp.out)
    ensures Stands(st, RequestValidated, ConditionTrue, Completed)
    ensures ReasonOf(st, ManifestsDeleted) == Some(Failed) || ReasonOf(st, ManifestsDeleted) == Some(Completed)
    ensures if req.mode == P.NoPreservation then
              && Stands(st, DataBackedUp, ConditionFalse, PreservationNotRequired)
              && Stands(st, IdentityDetected, ConditionFalse, PreservationNotRequired)
              && Stands(st, DataRestored, ConditionFalse, PreservationNotRequired)
            else
              && (if Total(inp.out.preserved) > 0 then Stands(st, DataBackedUp, ConditionTrue, Completed)
                  else Stands(st, DataBackedUp, ConditionFalse, DataUnavailable))
              && (if inp.out.preserved.identity > 0 then Stands(st, IdentityDetected, ConditionTrue, DataAvailable)
                  else Stands(st, IdentityDetected, ConditionFalse, DataUnavailable))
              && (if Total(inp.out.restored) > 0 then Stands(st, DataRestored, ConditionTrue, Completed)
                  else Stands(st, DataRestored, ConditionFalse, DataUnavailable))
  {
    FinalizesIff(st, req, inp);
    BackupFailsIff(req.mode, inp.out, inp.now);
    RestoreFailsIff(req.mode, inp.out, inp.now);
  }
}
