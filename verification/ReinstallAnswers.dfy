/**
 A reinstall pass stage by stage: what it leaves stored, what it answers, and which conditions say so. Said of
 the fields of the stored status and of the patches that get through.
 */
module ReinstallAnswers {
  import opened Kube
  import opened Conditions
  import opened Text
  import opened Reinstall
  import opened ReinstallSafety
  import opened ReinstallProgress
  import opened ReinstallLaws
  import P = Preservation
  import RD = ReinstallDemands

  predicate Says3(st: ReinstallStatus, kind: ConditionType, status: ConditionStatus, reason: Reason, message: string) {
    var c := Find(st.conditions, kind);
    c.Some? && c.value.status == status && c.value.reason == reason && c.value.message == message
  }

  /** Nothing is stored, and the pass is an error. */
  predicate Lost(st: Option<ReinstallStatus>, o: Outcome) {
    o.status == st && !o.requeue && o.failed && !o.paused
  }

  // ----- Before the tasks --------------------------------------------------------------------

  /** The request was finalized, or it ended with an outcome that is known. */
  predicate Over(st: ReinstallStatus, generation: string) {
    || st.observed == generation
    || (&& st.inProgress == generation && st.end.Some?
        && var c := Find(st.conditions, RequestProcessed);
           c.Some? && c.value.status != ConditionUnknown
           && (c.value.reason == Completed || c.value.reason == Failed || c.value.reason == TimedOut))
  }

  /** Such a request, and no other, is left alone. */
  lemma IdleIff(st: Option<ReinstallStatus>, req: Request, inp: Inputs)
    ensures Pass(st, req, inp).stage == Idle <==> st.Some? && Over(st.value, req.generation)
    ensures st.Some? && Over(st.value, req.generation) ==> Pass(st, req, inp) == Outcome(st, false, false, false, Idle)
  {
    if st.Some? {
      StageOfWork(st.value, req, inp);
    }
  }

  /** All seven conditions are fresh, and the times are gone; what was recorded stays. */
  ghost predicate FreshFor(was: Option<ReinstallStatus>, st: ReinstallStatus, generation: string) {
    && st.inProgress == generation && st.start.None? && st.end.None?
    && st.observed == (if was.Some? then was.value.observed else "")
    && st.history == (if was.Some? then was.value.history else [])
    && IsInitial(Find(st.conditions, RequestProcessed)) && IsInitial(Find(st.conditions, RequestValidated))
    && IsInitial(Find(st.conditions, DataBackedUp)) && IsInitial(Find(st.conditions, IdentityDetected))
    && IsInitial(Find(st.conditions, ManifestsDeleted)) && IsInitial(Find(st.conditions, DataRestored))
    && IsInitial(Find(st.conditions, ClusterReimported))
  }

  lemma InitializeIsFresh(st: Option<ReinstallStatus>, generation: string, now: int)
    ensures FreshFor(st, Initialize(st, generation, now), generation)
  {
    var news := InitialConditions(now);
    var cs := Cleared(st, generation).conditions;
    forall i | 0 <= i < |CONDITION_TYPES|
      ensures IsInitial(Find(SetAll(cs, news), CONDITION_TYPES[i]))
    {
      assert news[i].kind == CONDITION_TYPES[i] && news[i] in news;
      SetAllFinds(cs, news, CONDITION_TYPES[i]);
    }
    var at := CONDITION_TYPES;
    assert at[0] == RequestProcessed && at[1] == RequestValidated && at[2] == DataBackedUp && at[3] == IdentityDetected
        && at[4] == ManifestsDeleted && at[5] == DataRestored && at[6] == ClusterReimported;
  }

  /** No condition of an earlier request is kept. */
  lemma OldConditionsGo(st: ReinstallStatus, generation: string, now: int, kind: ConditionType)
    requires st.inProgress != generation && kind !in CONDITION_TYPES
    ensures Find(Initialize(Some(st), generation, now).conditions, kind).None?
  {
    NoneElsewhere([], InitialConditions(now), kind);
  }

  lemma {:induction false} NoneElsewhere(cs: seq<Condition>, news: seq<Condition>, kind: ConditionType)
    requires Find(cs, kind).None? && forall c | c in news :: c.kind != kind
    ensures Find(SetAll(cs, news), kind).None?
    decreases |news|
  {
    if news != [] {
      assert news[0] in news;
      FindMetaSet(cs, news[0], kind);
      NoneElsewhere(MetaSet(cs, news[0]), news[1..], kind);
    }
  }

  /** A new request: the fresh status is stored and another pass asked for, or the patch is lost. */
  lemma NewRequestAnswer(st: Option<ReinstallStatus>, req: Request, inp: Inputs)
    requires !Processed(st, req.generation)
    requires st.None? || st.value.inProgress != req.generation || Find(st.value.conditions, RequestProcessed).None?
    ensures var o := Pass(st, req, inp);
            if o.status.Some? && FreshFor(st, o.status.value, req.generation)
            then o.requeue && !o.failed && !o.paused
            else !inp.patches.task && Lost(st, o)
    ensures inp.patches.task ==> Pass(st, req, inp).requeue
  {
    InitializeIsFresh(st, req.generation, inp.now);
    if st.Some? && FreshFor(st, st.value, req.generation) {
      FreshNeedsNothing(st.value, req.generation);
    }
    NewRequestIs(st, req, inp);
  }

  lemma NewRequestIs(st: Option<ReinstallStatus>, req: Request, inp: Inputs)
    requires !Processed(st, req.generation) && NeedsInit(st, req.generation)
    ensures var o, next := Pass(st, req, inp), Initialize(st, req.generation, inp.now);
            if inp.patches.task || st == Some(next) then o == Outcome(Some(next), true, false, false, Initializing)
            else o == Outcome(st, false, true, false, Initializing)
  {
  }

  lemma FreshNeedsNothing(st: ReinstallStatus, generation: string)
    requires FreshFor(Some(st), st, generation)
    ensures !NeedsInit(Some(st), generation)
  {
  }

  /** Then the start time is set. */
  lemma StartAnswer(st: ReinstallStatus, req: Request, inp: Inputs)
    requires !Processed(Some(st), req.generation) && st.inProgress == req.generation
    requires var c := Find(st.conditions, RequestProcessed); c.Some? && c.value.reason == Initialized
    ensures var o := Pass(Some(st), req, inp);
            if inp.patches.task then
              && o.status.Some? && o.requeue && !o.failed && !o.paused
              && o.status.value.start == Some(inp.now) && o.status.value.(start := st.start, conditions := st.conditions) == st
              && Says3(o.status.value, RequestProcessed, ConditionFalse, InProgress, "for " + req.generation)
            else Lost(Some(st), o)
  {
    FindMetaSet(st.conditions, Overall(ConditionFalse, InProgress, "for " + req.generation, inp.now), RequestProcessed);
  }

  // ----- The conditions the tasks write ------------------------------------------------------

  lemma TwoFound(st: ReinstallStatus, c: Condition, d: Condition)
    requires c.kind != d.kind
    ensures var next := With(With(st, c), d);
            Says3(next, c.kind, c.status, c.reason, c.message) && Says3(next, d.kind, d.status, d.reason, d.message)
  {
    FindMetaSet(st.conditions, c, c.kind);
    FindMetaSet(With(st, c).conditions, d, c.kind);
    FindMetaSet(With(st, c).conditions, d, d.kind);
  }

  predicate IsCondition(c: Condition, kind: ConditionType, status: ConditionStatus, reason: Reason, message: string) {
    c.kind == kind && c.status == status && c.reason == reason && c.message == message
  }

  /** The two conditions of a backup in every case. A failure makes both False, and so does mode None. */
  lemma BackupSays(mode: P.Mode, out: Outcomes, now: int)
    ensures var (c, d, _) := BackupSummary(mode, out, now);
            var t := out.preserved;
            if mode == P.NoPreservation then
              && IsCondition(c, DataBackedUp, ConditionFalse, PreservationNotRequired, "none")
              && IsCondition(d, IdentityDetected, ConditionFalse, PreservationNotRequired, "none")
            else if out.backup.Some? then
              && IsCondition(c, DataBackedUp, ConditionFalse, Failed, out.backup.value)
              && IsCondition(d, IdentityDetected, ConditionFalse, Failed, "failed")
            else if t.Uncounted? then
              && IsCondition(c, DataBackedUp, ConditionFalse, Failed, t.error)
              && IsCondition(d, IdentityDetected, ConditionFalse, Failed, t.error)
            else
              && (if t.identity + t.others > 0 then IsCondition(c, DataBackedUp, ConditionTrue, Completed, "n=" + FormatInt(t.identity + t.others))
                  else IsCondition(c, DataBackedUp, ConditionFalse, DataUnavailable, "empty"))
              && (if t.identity > 0 then IsCondition(d, IdentityDetected, ConditionTrue, DataAvailable, "n=" + FormatInt(t.identity))
                  else if mode == P.ClusterIdentity then IsCondition(d, IdentityDetected, ConditionFalse, Failed, "no id")
                  else IsCondition(d, IdentityDetected, ConditionFalse, DataUnavailable, "no id"))
  {
  }

  /** Both are in the status that the task leaves. */
  lemma BackupLeaves(st: ReinstallStatus, req: Request, inp: Inputs)
    ensures var (c, d, _) := BackupSummary(req.mode, inp.out, inp.now);
            var next := PreserveData(st, req, inp).status;
            Says3(next, DataBackedUp, c.status, c.reason, c.message) && Says3(next, IdentityDetected, d.status, d.reason, d.message)
  {
    var (c, d, _) := BackupSummary(req.mode, inp.out, inp.now);
    BackupKinds(req, inp.out, inp.now);
    TwoFound(st, c, d);
  }

  lemma RestoreSays(mode: P.Mode, out: Outcomes, now: int)
    ensures var (c, t) := (RestoreSummary(mode, out, now).0, out.restored);
            if mode == P.NoPreservation then IsCondition(c, DataRestored, ConditionFalse, PreservationNotRequired, "none")
            else if out.restore.Some? then IsCondition(c, DataRestored, ConditionFalse, Failed, out.restore.value)
            else if t.Uncounted? then IsCondition(c, DataRestored, ConditionFalse, Failed, t.error)
            else if t.identity + t.others > 0 then
              IsCondition(c, DataRestored, ConditionTrue, Completed, "n=" + FormatInt(t.identity) + "," + FormatInt(t.others))
            else if mode == P.ClusterIdentity then IsCondition(c, DataRestored, ConditionFalse, Failed, "empty")
            else IsCondition(c, DataRestored, ConditionFalse, DataUnavailable, "empty")
  {
  }

  lemma RestoreLeaves(st: ReinstallStatus, req: Request, inp: Inputs)
    ensures var c := RestoreSummary(req.mode, inp.out, inp.now).0;
            Says3(RestoreData(st, req, inp).status, DataRestored, c.status, c.reason, c.message)
  {
    var c := RestoreSummary(req.mode, inp.out, inp.now).0;
    RestoreKind(req.mode, inp.out, inp.now);
    FindMetaSet(st.conditions, c, DataRestored);
  }

  lemma RestoreKind(mode: P.Mode, out: Outcomes, now: int)
    ensures RestoreSummary(mode, out, now).0.kind == DataRestored
  {
  }

  lemma ValidationLeaves(st: ReinstallStatus, inp: Inputs)
    ensures var r := Validate(st, inp);
            && (if inp.out.allowed then Says3(r.status, RequestValidated, ConditionTrue, Completed, "valid")
                else Says3(r.status, RequestValidated, ConditionFalse, Failed, "disabled"))
            && (r.error.None? <==> inp.out.allowed && (r.status == st || inp.patches.task))
  {
    FindMetaSet(st.conditions, Condition(RequestValidated, ConditionTrue, Completed, "valid", inp.now), RequestValidated);
    FindMetaSet(st.conditions, Condition(RequestValidated, ConditionFalse, Failed, "disabled", inp.now), RequestValidated);
  }

  /** A task that changed the status asks for another pass; if its patch is lost nothing is stored, and that is an error. */
  lemma ChangeIsRepeated(task: Task, st: ReinstallStatus, req: Request, inp: Inputs)
    requires task != Deleting && task != Labelling
    ensures var r := RunTask(task, st, req, inp);
            && (r.requeue <==> r.status != st)
            && (r.status == st || inp.patches.task ==> r.stored == r.status)
            && (r.status != st && !inp.patches.task ==> r.stored == st && r.error.Some?)
  {
  }

  /** Deleting: announced, then called until it finishes, fails or takes too long; after that never again. */
  lemma DeletionLeaves(st: ReinstallStatus, inp: Inputs)
    requires inp.patches.task
    ensures var r, reason := DeleteManifests(st, inp), ReasonOf(st, ManifestsDeleted);
            && r.stored == r.status
            && if inp.out.cluster.Some? then
                 Says3(r.status, ManifestsDeleted, ConditionFalse, Failed, inp.out.cluster.value) && r.error.Some? && !r.requeue
               else if reason.None? || reason == Some(Initialized) then
                 Says3(r.status, ManifestsDeleted, ConditionFalse, InProgress, "going") && r.error.None? && r.requeue
               else if reason == Some(Failed) || reason == Some(Completed) then
                 r.status == st && r.error.None? && !r.requeue
               else
                 match inp.out.deletion
                 case Finished =>
                   Says3(r.status, ManifestsDeleted, ConditionTrue, Completed, "gone") && r.error.None? && r.requeue
                 case StillWaiting => r.status == st && r.error.None? && r.requeue
                 case TookTooLong =>
                   Says3(r.status, ManifestsDeleted, ConditionFalse, TimedOut, "late") && r.error.Some? && !r.requeue
                 case WentWrong(error) =>
                   Says3(r.status, ManifestsDeleted, ConditionFalse, Failed, error) && r.error.Some? && !r.requeue
  {
    var (c, _) := DeletionSummary(st, inp.out, inp.now);
    if c.Some? {
      FindMetaSet(st.conditions, c.value, ManifestsDeleted);
      MetaSetSame(st.conditions, c.value);
    }
  }

  /** If the patch of the deletion's condition is lost, nothing is stored and the pass is an error, asked for by none. */
  lemma DeletionLost(st: ReinstallStatus, inp: Inputs)
    requires !inp.patches.task && DeleteManifests(st, inp).status != st
    ensures var r := DeleteManifests(st, inp); r.stored == st && r.error.Some? && !r.requeue
  {
  }

  // ----- The end of a pass -------------------------------------------------------------------

  /** A patch carries what differs from its base: what does not differ stays as stored. */
  lemma MergeLaws(stored: ReinstallStatus, base: ReinstallStatus, next: ReinstallStatus)
    ensures Merge(base, base, next) == next
    ensures Merge(stored, base, base) == stored
    ensures Merge(stored, base, base.(observed := next.observed)) == stored.(observed := if next.observed == base.observed then stored.observed else next.observed)
    ensures Merge(stored, base, base.(inProgress := next.inProgress)) == stored.(inProgress := if next.inProgress == base.inProgress then stored.inProgress else next.inProgress)
    ensures Merge(stored, base, base.(start := next.start)) == stored.(start := if next.start == base.start then stored.start else next.start)
    ensures Merge(stored, base, base.(end := next.end)) == stored.(end := if next.end == base.end then stored.end else next.end)
    ensures Merge(stored, base, base.(history := next.history)) == stored.(history := if next.history == base.history then stored.history else next.history)
    ensures Merge(stored, base, base.(conditions := next.conditions)) == stored.(conditions := if next.conditions == base.conditions then stored.conditions else next.conditions)
  {
  }

  /** How a pass ends that stops at a task, when everything it stores is stored. */
  ghost predicate EndsAt(task: Task, r: TaskResult, o: Outcome, now: int) {
    && o.status.Some? && o.stage == AtTask(task)
    && o.requeue == r.requeue && o.failed == r.error.Some?
    && (if r.requeue then
          && o.status.value.end == r.stored.end && !o.paused
          && Says3(o.status.value, RequestProcessed, ConditionFalse, InProgress, Description(task))
        else
          && r.error.Some? && Says3(o.status.value, RequestProcessed, ConditionFalse, Failed, Description(task) + ": " + r.error.value)
          && (if task == Deleting then o.status.value.end == r.stored.end && o.paused
              else o.status.value.end == Some(now) && !o.paused))
    && o.status.value.(conditions := r.stored.conditions, end := r.stored.end) == r.stored
  }

  lemma StopAnswer(task: Task, st: ReinstallStatus, req: Request, inp: Inputs)
    requires Working(st, req) && Work(st, req, inp).stage == AtTask(task) && inp.patches == Patches(true, true, true)
    ensures EndsAt(task, RunTask(task, st, req, inp), Pass(Some(st), req, inp), inp.now)
  {
    StoppedIs(task, st, req, inp);
    AllStored(task, st, req, inp);
    var r := RunTask(task, st, req, inp);
    CloseSays(r, ClosingCondition(task, r, inp.now), !r.requeue && EndsRequest(task), !r.requeue && !EndsRequest(task), inp, AtTask(task));
  }

  lemma AllStored(task: Task, st: ReinstallStatus, req: Request, inp: Inputs)
    requires inp.patches == Patches(true, true, true)
    ensures var r := RunTask(task, st, req, inp); r.stored == r.status
  {
  }

  lemma CloseSays(r: TaskResult, c: Condition, ends: bool, pauses: bool, inp: Inputs, stage: Stage)
    requires r.status == r.stored && c.kind == RequestProcessed && inp.patches == Patches(true, true, true)
    ensures var o := CloseWith(r, c, ends, pauses, inp, stage);
            && o.status.Some? && o.stage == stage && o.requeue == r.requeue && o.failed == r.error.Some? && o.paused == pauses
            && o.status.value.end == (if ends then Some(inp.now) else r.stored.end)
            && Says3(o.status.value, RequestProcessed, c.status, c.reason, c.message)
            && o.status.value.(conditions := r.stored.conditions, end := r.stored.end) == r.stored
  {
    FindMetaSet(r.status.conditions, c, RequestProcessed);
  }

  /** If the patch on the way out is lost, what the task stored stays, and it is an error; nothing is paused. */
  lemma ClosingLost(task: Task, st: ReinstallStatus, req: Request, inp: Inputs)
    requires Working(st, req) && Work(st, req, inp).stage == AtTask(task) && !inp.patches.closing
    ensures var r, o := RunTask(task, st, req, inp), Pass(Some(st), req, inp);
            var there := Says3(r.status, RequestProcessed, ConditionFalse, if r.requeue then InProgress else Failed, Closing(task, r));
            && o.status == Some(r.stored) && o.requeue == r.requeue
            && (if there && (r.requeue || task == Deleting) then o.failed == r.error.Some? && o.paused == (!r.requeue && inp.patches.pause)
                else o.failed && !o.paused)
  {
    StoppedIs(task, st, req, inp);
    var r := RunTask(task, st, req, inp);
    LostSays(r, ClosingCondition(task, r, inp.now), !r.requeue && EndsRequest(task), !r.requeue && !EndsRequest(task), inp, AtTask(task));
  }

  /** The message of the overall condition. */
  function Closing(task: Task, r: TaskResult): string {
    if r.requeue || r.error.None? then Description(task) else Description(task) + ": " + r.error.value
  }

  function ClosingCondition(task: Task, r: TaskResult, now: int): Condition {
    Overall(ConditionFalse, if r.requeue then InProgress else Failed, Closing(task, r), now)
  }

  lemma StoppedIs(task: Task, st: ReinstallStatus, req: Request, inp: Inputs)
    requires Working(st, req) && Work(st, req, inp).stage == AtTask(task)
    ensures var r := RunTask(task, st, req, inp);
            && (r.requeue || r.error.Some?)
            && Pass(Some(st), req, inp) ==
               CloseWith(r, ClosingCondition(task, r, inp.now), !r.requeue && EndsRequest(task), !r.requeue && !EndsRequest(task), inp, AtTask(task))
  {
    StageOfWork(st, req, inp);
    TasksEnd(TasksFor(req), st, req, inp);
  }

  lemma LostSays(r: TaskResult, c: Condition, ends: bool, pauses: bool, inp: Inputs, stage: Stage)
    requires c.kind == RequestProcessed && !inp.patches.closing
    ensures var o := CloseWith(r, c, ends, pauses, inp, stage);
            && o.status == Some(r.stored) && o.requeue == r.requeue
            && (if Says3(r.status, RequestProcessed, c.status, c.reason, c.message) && !ends
                then o.failed == r.error.Some? && o.paused == (pauses && inp.patches.pause)
                else o.failed && !o.paused)
  {
    MetaSetSame(r.status.conditions, c);
  }

  // ----- Finalizing --------------------------------------------------------------------------

  ghost predicate Recorded(history: seq<Record>, generation: string) {
    exists r :: r in history && r.generation == generation
  }

  lemma RecordedIff(history: seq<Record>, generation: string)
    ensures InHistory(history, generation) <==> Recorded(history, generation)
  {
    if r :| r in history && r.generation == generation {
      var i :| 0 <= i < |history| && history[i] == r;
    }
    if i :| 0 <= i < |history| && history[i].generation == generation {
      assert history[i] in history;
    }
  }

  /**
   A pass that comes to finalizing: if the cleanup or the diff fails, the request stays open and the pass is an
   error; otherwise the generation is observed and recorded with its times, and the request is completed.
   */
  lemma FinalAnswer(st: ReinstallStatus, req: Request, inp: Inputs)
    requires Working(st, req) && Work(st, req, inp).stage == Finalizing && inp.patches == Patches(true, true, true)
    requires !Recorded(st.history, req.generation)
    ensures var o := Pass(Some(st), req, inp);
            && o.status.Some? && !o.requeue && !o.paused
            && if inp.out.cleanup.Some? || inp.out.diff.Some? then
                 && o.failed && o.status.value.(conditions := st.conditions) == st
                 && Says3(o.status.value, RequestProcessed, ConditionFalse, InProgress, "final")
               else
                 var end := if st.end.Some? then st.end else Some(inp.now);
                 && !o.failed && Says3(o.status.value, RequestProcessed, ConditionTrue, Completed, "done")
                 && o.status.value.observed == req.generation && o.status.value.inProgress == ""
                 && o.status.value.start == st.start && o.status.value.end == end
                 && o.status.value.history == st.history + [Record(req.generation, st.start, end)]
  {
    StageOfWork(st, req, inp);
    TasksEnd(TasksFor(req), st, req, inp);
    WorkThrough(st, req, inp);
    RecordedIff(st.history, req.generation);
    var r := Finalize(st, req, inp);
    FinalizeStored(st, req, inp);
    CloseSays(r, FinalCondition(r, inp.now), false, false, inp, Finalizing);
  }

  lemma FinalizeStored(st: ReinstallStatus, req: Request, inp: Inputs)
    requires inp.patches == Patches(true, true, true)
    ensures var r := Finalize(st, req, inp);
            && r.stored == r.status && !r.requeue && (r.error.Some? <==> inp.out.cleanup.Some? || inp.out.diff.Some?)
            && r.status == if r.error.Some? then st else Finalized(st, req.generation, inp.now)
  {
  }

  /** If the finalizing patch is lost, nothing is recorded and the pass is an error. */
  lemma FinalizingLost(st: ReinstallStatus, req: Request, inp: Inputs)
    requires Working(st, req) && Work(st, req, inp).stage == Finalizing && !inp.patches.task
    requires inp.out.cleanup.None? && inp.out.diff.None?
    ensures var o := Pass(Some(st), req, inp);
            && o.status.Some? && o.status.value.observed == st.observed && o.status.value.history == st.history && o.failed
            && !o.requeue
  {
    StageOfWork(st, req, inp);
    TasksEnd(TasksFor(req), st, req, inp);
    WorkThrough(st, req, inp);
    LostFinalize(st, req, inp);
    var r := Finalize(st, req, inp);
    LostClose(r, FinalCondition(r, inp.now), inp);
  }

  lemma LostFinalize(st: ReinstallStatus, req: Request, inp: Inputs)
    requires Working(st, req) && !inp.patches.task && inp.out.cleanup.None? && inp.out.diff.None?
    ensures var r := Finalize(st, req, inp); r.stored == st && r.error.Some? && !r.requeue
  {
  }

  lemma LostClose(r: TaskResult, c: Condition, inp: Inputs)
    requires r.error.Some? && !r.requeue
    requires r.status.(conditions := r.stored.conditions) == r.status
    ensures var o := CloseWith(r, c, false, false, inp, Finalizing);
            && o.status.Some? && o.failed && !o.requeue
            && o.status.value.(conditions := r.stored.conditions) == r.stored
  {
  }
}
