/**
 Reinstalls end. When nothing but the deletion makes a pass wait, the tasks settle one after the other:
 a measure of the settled conditions drops with every pass that does not wait for deletions.
 */
module ReinstallProgress {
  import opened Kube
  import opened Conditions
  import opened Reinstall
  import opened ReinstallSafety

  // ----- Settled tasks -----------------------------------------------------------------------

  /** The conditions the tasks write. */
  datatype View = View(
    validated: Option<Condition>,
    backedUp: Option<Condition>,
    identified: Option<Condition>,
    deleted: Option<Condition>,
    restored: Option<Condition>)

  function Seen(st: ReinstallStatus): View {
    var cs := st.conditions;
    View(Find(cs, RequestValidated), Find(cs, DataBackedUp), Find(cs, IdentityDetected), Find(cs, ManifestsDeleted),
         Find(cs, DataRestored))
  }

  function Updated(v: View, c: Condition): View {
    match c.kind
    case RequestValidated => v.(validated := Some(Written(v.validated, c)))
    case DataBackedUp => v.(backedUp := Some(Written(v.backedUp, c)))
    case IdentityDetected => v.(identified := Some(Written(v.identified, c)))
    case ManifestsDeleted => v.(deleted := Some(Written(v.deleted, c)))
    case DataRestored => v.(restored := Some(Written(v.restored, c)))
    case _ => v
  }

  lemma WithSeen(st: ReinstallStatus, c: Condition)
    ensures Seen(With(st, c)) == Updated(Seen(st), c)
  {
    FindMetaSet(st.conditions, c, RequestValidated);
    FindMetaSet(st.conditions, c, DataBackedUp);
    FindMetaSet(st.conditions, c, IdentityDetected);
    FindMetaSet(st.conditions, c, ManifestsDeleted);
    FindMetaSet(st.conditions, c, DataRestored);
  }

  function Verdict(out: Outcomes): Condition {
    if out.allowed then Condition(RequestValidated, ConditionTrue, Completed, "valid", 0)
    else Condition(RequestValidated, ConditionFalse, Failed, "disabled", 0)
  }

  predicate Validated(v: View, out: Outcomes) {
    Says(v.validated, Verdict(out))
  }

  predicate Preserved(v: View, req: Request, out: Outcomes) {
    var (c, d, _) := BackupSummary(req.mode, out, 0);
    Says(v.backedUp, c) && Says(v.identified, d)
  }

  predicate Restored(v: View, req: Request, out: Outcomes) {
    Says(v.restored, RestoreSummary(req.mode, out, 0).0)
  }

  /** How many passes the deletion still needs, not counting those that wait. */
  function DeletionRank(v: View): nat {
    if v.deleted.None? || v.deleted.value.reason == Initialized then 2
    else if v.deleted.value.reason == Failed || v.deleted.value.reason == Completed then 0
    else 1
  }

  function TaskRank(v: View, req: Request, out: Outcomes): nat {
    (if Validated(v, out) then 0 else 1)
    + (if Preserved(v, req, out) then 0 else 1)
    + DeletionRank(v)
    + (if Restored(v, req, out) then 0 else 1)
  }

  function Rank(st: Option<ReinstallStatus>, req: Request, out: Outcomes): (r: nat)
    ensures r <= 8
    ensures r == 0 <==> Processed(st, req.generation)
  {
    if Processed(st, req.generation) then 0
    else if NeedsInit(st, req.generation) then 8
    else if ReasonOf(st.value, RequestProcessed) == Some(Initialized) then 7
    else 1 + TaskRank(Seen(st.value), req, out)
  }

  /**
   The tasks meet the same answers on every pass, only the deletion may go from waiting to finished; and
   every patch gets through.
   */
  predicate Stable(inp: Inputs, out: Outcomes) {
    && inp.out.(deletion := out.deletion) == out
    && (inp.out.deletion == Finished || inp.out.deletion == StillWaiting)
    && inp.patches == Patches(true, true, true)
    && out.cluster.None? && out.cleanup.None? && out.diff.None?
  }

  lemma SummariesStable(req: Request, inp: Inputs, out: Outcomes)
    requires Stable(inp, out)
    ensures var (c, d, e) := BackupSummary(req.mode, inp.out, inp.now);
            var (c', d', e') := BackupSummary(req.mode, out, 0);
            && c.(since := 0) == c' && d.(since := 0) == d' && e == e'
            && c.kind == DataBackedUp && d.kind == IdentityDetected
    ensures var (c, e) := RestoreSummary(req.mode, inp.out, inp.now);
            var (c', e') := RestoreSummary(req.mode, out, 0);
            c.(since := 0) == c' && e == e' && c.kind == DataRestored
  {
  }

  // ----- One pass ----------------------------------------------------------------------------

  lemma ValidateDrops(v: View, req: Request, out: Outcomes, c: Condition)
    requires c.(since := 0) == Verdict(out)
    ensures TaskRank(Updated(v, c), req, out) == TaskRank(v, req, out) - (if Validated(v, out) then 0 else 1)
  {
    assert Updated(v, c) == v.(validated := Updated(v, c).validated);
    assert Validated(Updated(v, c), out);
  }

  lemma ValidateRank(st: ReinstallStatus, req: Request, inp: Inputs, out: Outcomes)
    requires Stable(inp, out)
    ensures var r := Validate(st, inp);
            && r.status == r.stored
            && (r.requeue ==> TaskRank(Seen(r.stored), req, out) < TaskRank(Seen(st), req, out))
  {
    var c := Verdict(out).(since := inp.now);
    MetaSetSame(st.conditions, c);
    WithSeen(st, c);
    ValidateDrops(Seen(st), req, out, c);
  }

  lemma PreserveDrops(v: View, req: Request, out: Outcomes, c: Condition, d: Condition)
    requires c.(since := 0) == BackupSummary(req.mode, out, 0).0 && d.(since := 0) == BackupSummary(req.mode, out, 0).1
    requires c.kind == DataBackedUp && d.kind == IdentityDetected
    ensures TaskRank(Updated(Updated(v, c), d), req, out) == TaskRank(v, req, out) - (if Preserved(v, req, out) then 0 else 1)
  {
    var v' := Updated(Updated(v, c), d);
    assert v' == v.(backedUp := v'.backedUp, identified := v'.identified);
    assert Preserved(v', req, out);
  }

  lemma PreserveRank(st: ReinstallStatus, req: Request, inp: Inputs, out: Outcomes)
    requires Stable(inp, out)
    ensures var r := PreserveData(st, req, inp);
            && r.status == r.stored
            && (r.requeue ==> TaskRank(Seen(r.stored), req, out) < TaskRank(Seen(st), req, out))
  {
    var (c, d, e) := BackupSummary(req.mode, inp.out, inp.now);
    SummariesStable(req, inp, out);
    WithSeen(st, c);
    WithSeen(With(st, c), d);
    PreserveDrops(Seen(st), req, out, c, d);
    TwoWrites(st.conditions, c, d);
    assert Preserved(Seen(st), req, out) <==> With(With(st, c), d) == st;
  }

  lemma RestoreDrops(v: View, req: Request, out: Outcomes, c: Condition)
    requires c.(since := 0) == RestoreSummary(req.mode, out, 0).0 && c.kind == DataRestored
    ensures TaskRank(Updated(v, c), req, out) == TaskRank(v, req, out) - (if Restored(v, req, out) then 0 else 1)
  {
    assert Updated(v, c) == v.(restored := Updated(v, c).restored);
    assert Restored(Updated(v, c), req, out);
  }

  lemma RestoreRank(st: ReinstallStatus, req: Request, inp: Inputs, out: Outcomes)
    requires Stable(inp, out)
    ensures var r := RestoreData(st, req, inp);
            && r.status == r.stored
            && (r.requeue ==> TaskRank(Seen(r.stored), req, out) < TaskRank(Seen(st), req, out))
  {
    var c := RestoreSummary(req.mode, inp.out, inp.now).0;
    SummariesStable(req, inp, out);
    MetaSetSame(st.conditions, c);
    WithSeen(st, c);
    RestoreDrops(Seen(st), req, out, c);
  }

  predicate Waits(st: ReinstallStatus, inp: Inputs) {
    DeletionCalled(st, inp.out) && inp.out.deletion == StillWaiting
  }

  lemma DeleteDrops(st: ReinstallStatus, inp: Inputs, req: Request, out: Outcomes)
    requires Stable(inp, out)
    ensures var (c, e) := DeletionSummary(st, inp.out, inp.now);
            && e.None?
            && (c.Some? ==> c.value.kind == ManifestsDeleted && !Says(Seen(st).deleted, c.value)
                            && TaskRank(Updated(Seen(st), c.value), req, out) < TaskRank(Seen(st), req, out))
  {
    var (c, _) := DeletionSummary(st, inp.out, inp.now);
    if c.Some? {
      var v := Seen(st);
      assert Updated(v, c.value) == v.(deleted := Some(Written(v.deleted, c.value)));
    }
  }

  lemma DeleteRank(st: ReinstallStatus, req: Request, inp: Inputs, out: Outcomes)
    requires Stable(inp, out)
    ensures var r := DeleteManifests(st, inp);
            && r.status == r.stored && r.error.None?
            && (r.requeue ==> if Waits(st, inp) then r.stored == st
                              else TaskRank(Seen(r.stored), req, out) < TaskRank(Seen(st), req, out))
  {
    var (c, _) := DeletionSummary(st, inp.out, inp.now);
    DeleteDrops(st, inp, req, out);
    if c.Some? {
      MetaSetSame(st.conditions, c.value);
      WithSeen(st, c.value);
    }
  }

  lemma TaskRankDrops(task: Task, st: ReinstallStatus, req: Request, inp: Inputs, out: Outcomes)
    requires Stable(inp, out) && st.start.Some?
    ensures var r := RunTask(task, st, req, inp);
            && r.status == r.stored
            && (r.requeue ==> if task == Deleting && Waits(st, inp) then r.stored == st
                              else TaskRank(Seen(r.stored), req, out) < TaskRank(Seen(st), req, out))
            && (r.error.Some? && !r.requeue ==> EndsRequest(task))
  {
    match task
    case Validating => ValidateRank(st, req, inp, out);
    case Preserving => PreserveRank(st, req, inp, out);
    case Deleting => DeleteRank(st, req, inp, out);
    case Restoring => RestoreRank(st, req, inp, out);
    case _ =>
  }

  /** What closing leaves when everything is stored. */
  lemma CloseAll(r: TaskResult, c: Condition, ends: bool, pauses: bool, inp: Inputs, stage: Stage)
    requires r.status == r.stored && inp.patches == Patches(true, true, true)
    ensures var o := CloseWith(r, c, ends, pauses, inp, stage);
            && o.status == Some(With(if ends then r.stored.(end := Some(inp.now)) else r.stored, c))
            && o.stage == stage
  {
  }

  lemma WorkStopped(task: Task, st: ReinstallStatus, req: Request, inp: Inputs, r: TaskResult)
    requires RunTasks(TasksFor(req), st, req, inp) == Stopped(task, r) && Stops(r)
    requires r.status == r.stored && inp.patches == Patches(true, true, true)
    requires !r.requeue ==> EndsRequest(task)
    ensures Work(st, req, inp).stage == AtTask(task)
    ensures Work(st, req, inp).status == Some(
              if r.requeue then With(r.stored, Overall(ConditionFalse, InProgress, Description(task), inp.now))
              else With(r.stored.(end := Some(inp.now)),
                        Overall(ConditionFalse, Failed, Description(task) + ": " + r.error.value, inp.now)))
  {
    if r.requeue {
      CloseAll(r, Overall(ConditionFalse, InProgress, Description(task), inp.now), false, false, inp, AtTask(task));
    } else {
      CloseAll(r, Overall(ConditionFalse, Failed, Description(task) + ": " + r.error.value, inp.now),
               true, false, inp, AtTask(task));
    }
  }

  lemma InProgressRank(st: ReinstallStatus, req: Request, out: Outcomes, c: Condition)
    requires c.kind == RequestProcessed && c.reason == InProgress
    ensures Rank(Some(With(st, c)), req, out) <= 1 + TaskRank(Seen(st), req, out) || st.inProgress != req.generation
  {
    WithSeen(st, c);
    FindMetaSet(st.conditions, c, RequestProcessed);
  }

  lemma FailedRank(st: ReinstallStatus, req: Request, out: Outcomes, c: Condition)
    requires c.kind == RequestProcessed && c.reason == Failed && c.status == ConditionFalse
    requires st.inProgress == req.generation && st.end.Some?
    ensures Rank(Some(With(st, c)), req, out) == 0
  {
    FindMetaSet(st.conditions, c, RequestProcessed);
  }

  /** The pass called the deletion and is told to wait. */
  predicate WaitsNow(st: Option<ReinstallStatus>, req: Request, inp: Inputs) {
    st.Some? && Pass(st, req, inp).stage == AtTask(Deleting) && Waits(st.value, inp)
  }

  lemma StoppedRank(task: Task, st: ReinstallStatus, req: Request, inp: Inputs, out: Outcomes)
    requires Sound(st, inp.now) && Working(st, req) && Stable(inp, out)
    requires Stops(RunTask(task, st, req, inp))
    requires RunTasks(TasksFor(req), st, req, inp) == Stopped(task, RunTask(task, st, req, inp))
    ensures var o := Work(st, req, inp);
            && o.stage == AtTask(task)
            && (if task == Deleting && Waits(st, inp) then Rank(o.status, req, out) <= 1 + TaskRank(Seen(st), req, out)
                else Rank(o.status, req, out) < 1 + TaskRank(Seen(st), req, out))
  {
    var r := RunTask(task, st, req, inp);
    TaskIsSound(task, st, req, inp);
    TaskRankDrops(task, st, req, inp, out);
    WorkStopped(task, st, req, inp, r);
    if r.requeue {
      InProgressRank(r.stored, req, out, Overall(ConditionFalse, InProgress, Description(task), inp.now));
    } else {
      FailedRank(r.stored.(end := Some(inp.now)), req, out,
                 Overall(ConditionFalse, Failed, Description(task) + ": " + r.error.value, inp.now));
    }
  }

  /** A pass that gets through the tasks completes the request. */
  lemma ThroughCompletes(st: ReinstallStatus, req: Request, inp: Inputs)
    requires RunTasks(TasksFor(req), st, req, inp) == Through(st)
    requires inp.patches == Patches(true, true, true) && inp.out.cleanup.None? && inp.out.diff.None?
    ensures Work(st, req, inp).status == Some(With(Finalized(st, req.generation, inp.now),
                                                   Overall(ConditionTrue, Completed, "done", inp.now)))
  {
    CloseAll(Finalize(st, req, inp), Overall(ConditionTrue, Completed, "done", inp.now), false, false, inp, Finalizing);
  }

  lemma BegunRank(st: ReinstallStatus, req: Request, now: int, out: Outcomes)
    requires st.inProgress == req.generation
    ensures Rank(Some(Begun(st, req, now)), req, out) <= 6
  {
    InProgressRank(st.(start := Some(now)), req, out,
                   Overall(ConditionFalse, InProgress, "for " + req.generation, now));
  }

  /** Every pass brings the request nearer to its end, unless it is told to wait for deletions. */
  lemma PassDropsRank(st: Option<ReinstallStatus>, req: Request, inp: Inputs, out: Outcomes)
    requires st.Some? ==> Sound(st.value, inp.now)
    requires !Processed(st, req.generation) && Stable(inp, out)
    ensures var s := Pass(st, req, inp).status;
            if WaitsNow(st, req, inp) then Rank(s, req, out) <= Rank(st, req, out)
            else Rank(s, req, out) < Rank(st, req, out)
  {
    if NeedsInit(st, req.generation) {
      InitializedIsSound(st, req.generation, inp.now);
    } else if ReasonOf(st.value, RequestProcessed) == Some(Initialized) {
      BegunRank(st.value, req, inp.now, out);
    } else {
      TasksEnd(TasksFor(req), st.value, req, inp);
      var p := RunTasks(TasksFor(req), st.value, req, inp);
      if p.Stopped? {
        StoppedRank(p.task, st.value, req, inp, out);
      } else {
        ThroughCompletes(st.value, req, inp);
      }
    }
  }

  // ----- Runs --------------------------------------------------------------------------------

  /** The pass calls the deletion. */
  predicate CallsNow(st: Option<ReinstallStatus>, req: Request, inp: Inputs) {
    st.Some? && Pass(st, req, inp).stage == AtTask(Deleting) && DeletionCalled(st.value, inp.out)
  }

  function WithAnswer(inp: Inputs, finished: bool): Inputs {
    inp.(out := inp.out.(deletion := if finished then Finished else StillWaiting))
  }

  /** Passes in a row; the i-th call of the deletion gets the i-th answer, and those after the last one `true`. */
  function Passes(st: Option<ReinstallStatus>, req: Request, inps: seq<Inputs>, answers: seq<bool>): Option<ReinstallStatus>
    decreases |inps|
  {
    if inps == [] then st
    else
      var inp := WithAnswer(inps[0], answers == [] || answers[0]);
      Passes(Pass(st, req, inp).status, req, inps[1..],
             if CallsNow(st, req, inp) && answers != [] then answers[1..] else answers)
  }

  function Refusals(answers: seq<bool>): nat {
    if answers == [] then 0 else (if answers[0] then 0 else 1) + Refusals(answers[1..])
  }

  ghost predicate AllStable(inps: seq<Inputs>, out: Outcomes, clock: int)
    decreases |inps|
  {
    inps == [] || (clock <= inps[0].now && Stable(WithAnswer(inps[0], true), out) && AllStable(inps[1..], out, inps[0].now))
  }

  lemma {:induction false} EnoughPasses(st: Option<ReinstallStatus>, req: Request, inps: seq<Inputs>, answers: seq<bool>,
                                        out: Outcomes, clock: int)
    requires st.Some? ==> Sound(st.value, clock)
    requires AllStable(inps, out, clock)
    requires Processed(st, req.generation) || Rank(st, req, out) + Refusals(answers) <= |inps|
    ensures Processed(Passes(st, req, inps, answers), req.generation)
    decreases |inps|
  {
    if inps != [] {
      var inp := WithAnswer(inps[0], answers == [] || answers[0]);
      PassIsSound(st, req, inp);
      if !Processed(st, req.generation) {
        PassDropsRank(st, req, inp, out);
      }
      EnoughPasses(Pass(st, req, inp).status, req, inps[1..],
                   if CallsNow(st, req, inp) && answers != [] then answers[1..] else answers, out, inp.now);
    }
  }

  /**
   A reinstall ends: from any reachable status, 8 passes and one for each time the deletion has to wait
   are enough to complete the request or to end it as failed.
   */
  lemma ReinstallEnds(st: Option<ReinstallStatus>, req: Request, inps: seq<Inputs>, answers: seq<bool>, out: Outcomes, clock: int)
    requires st.Some? ==> Sound(st.value, clock)
    requires AllStable(inps, out, clock) && |inps| >= 8 + Refusals(answers)
    ensures Processed(Passes(st, req, inps, answers), req.generation)
  {
    EnoughPasses(st, req, inps, answers, out, clock);
  }

  // ----- Success -----------------------------------------------------------------------------

  predicate Flawless(req: Request, out: Outcomes) {
    && req.generation != "" && out.allowed && out.labels.None?
    && BackupSummary(req.mode, out, 0).2.None? && RestoreSummary(req.mode, out, 0).1.None?
  }

  predicate Succeeded(st: Option<ReinstallStatus>, generation: string) {
    st.Some? && st.value.observed == generation && IsTrue(st.value.conditions, RequestProcessed)
  }

  lemma FlawlessTask(task: Task, st: ReinstallStatus, req: Request, inp: Inputs, out: Outcomes)
    requires Stable(inp, out) && Flawless(req, out)
    ensures RunTask(task, st, req, inp).error.None?
  {
    SummariesStable(req, inp, out);
    if task == Deleting {
      DeleteRank(st, req, inp, out);
    }
  }

  lemma FlawlessPass(st: Option<ReinstallStatus>, req: Request, inp: Inputs, out: Outcomes)
    requires st.Some? ==> Sound(st.value, inp.now)
    requires !Processed(st, req.generation) && Stable(inp, out) && Flawless(req, out)
    ensures var s := Pass(st, req, inp).status;
            Processed(s, req.generation) ==> Succeeded(s, req.generation)
  {
    if NeedsInit(st, req.generation) {
      InitializedIsSound(st, req.generation, inp.now);
    } else if ReasonOf(st.value, RequestProcessed) == Some(Initialized) {
      NotProcessed(st.value.(start := Some(inp.now)), req,
                   Overall(ConditionFalse, InProgress, "for " + req.generation, inp.now));
    } else {
      TasksEnd(TasksFor(req), st.value, req, inp);
      var p := RunTasks(TasksFor(req), st.value, req, inp);
      if p.Stopped? {
        FlawlessTask(p.task, st.value, req, inp, out);
        TaskIsSound(p.task, st.value, req, inp);
        TaskRankDrops(p.task, st.value, req, inp, out);
        WorkStopped(p.task, st.value, req, inp, p.result);
        NotProcessed(p.result.stored, req, Overall(ConditionFalse, InProgress, Description(p.task), inp.now));
      } else {
        ThroughCompletes(st.value, req, inp);
        var c := Overall(ConditionTrue, Completed, "done", inp.now);
        FindMetaSet(st.value.conditions, c, RequestProcessed);
      }
    }
  }

  lemma NotProcessed(st: ReinstallStatus, req: Request, c: Condition)
    requires c.kind == RequestProcessed && c.reason == InProgress && st.observed != req.generation
    ensures !Processed(Some(With(st, c)), req.generation)
  {
    FindMetaSet(st.conditions, c, RequestProcessed);
  }

  lemma {:induction false} FlawlessRun(st: Option<ReinstallStatus>, req: Request, inps: seq<Inputs>, answers: seq<bool>,
                                       out: Outcomes, clock: int)
    requires st.Some? ==> Sound(st.value, clock)
    requires AllStable(inps, out, clock) && Flawless(req, out)
    requires !Processed(st, req.generation) || Succeeded(st, req.generation)
    ensures var s := Passes(st, req, inps, answers);
            !Processed(s, req.generation) || Succeeded(s, req.generation)
    decreases |inps|
  {
    if inps != [] {
      var inp := WithAnswer(inps[0], answers == [] || answers[0]);
      PassIsSound(st, req, inp);
      if !Processed(st, req.generation) {
        FlawlessPass(st, req, inp, out);
      }
      FlawlessRun(Pass(st, req, inp).status, req, inps[1..],
                  if CallsNow(st, req, inp) && answers != [] then answers[1..] else answers, out, inp.now);
    }
  }
}
