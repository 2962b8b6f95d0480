/**
 What every reachable reinstall status satisfies: any requests, any outcomes of the tasks, any of the
 status patches lost, and the reimport machine writing its condition in between.
 */
module ReinstallSafety {
  import opened Kube
  import opened Conditions
  import opened Reinstall

  ghost predicate DistinctGenerations(history: seq<Record>) {
    forall i, j | 0 <= i < j < |history| :: history[i].generation != history[j].generation
  }

  predicate Ordered(r: Record) {
    r.start.Some? && r.end.Some? && r.start.value <= r.end.value
  }

  /** The four forms the overall condition ever takes. */
  predicate Shaped(c: Condition) {
    || (c.status == ConditionUnknown && c.reason == Initialized)
    || (c.status == ConditionFalse && (c.reason == InProgress || c.reason == Failed))
    || (c.status == ConditionTrue && c.reason == Completed)
  }

  /** What holds of a stored status at time `clock`. */
  ghost predicate Sound(st: ReinstallStatus, clock: int) {
    var c := Find(st.conditions, RequestProcessed);
    && DistinctGenerations(st.history)
    && (forall r | r in st.history :: Ordered(r))
    && (st.observed != "" ==> InHistory(st.history, st.observed))
    && SoundOverall(st, c)
    && (st.start.Some? ==> st.start.value <= clock)
    && (st.start.Some? && st.end.Some? ==> st.start.value <= st.end.value)
  }

  /** How the overall condition agrees with the other fields. */
  predicate SoundOverall(st: ReinstallStatus, c: Option<Condition>) {
    && (c.Some? ==> Shaped(c.value))
    && (c.Some? && c.value.reason != Initialized ==> st.start.Some?)
    && (st.end.Some? ==> c.Some? && c.value.reason != Initialized)
    && (c.Some? && c.value.reason == Completed ==> st.inProgress == "" && st.end.Some?)
    && (st.inProgress != "" && st.end.Some? ==> c.Some? && c.value.reason == Failed)
  }

  // ----- Tasks -------------------------------------------------------------------------------

  /** A task changes conditions other than the overall one, and sets a missing start time. */
  ghost predicate TaskChange(st: ReinstallStatus, next: ReinstallStatus) {
    && next.(conditions := st.conditions, start := st.start) == st
    && Find(next.conditions, RequestProcessed) == Find(st.conditions, RequestProcessed)
    && (st.start.Some? ==> next.start == st.start)
  }

  lemma WithChanges(st: ReinstallStatus, c: Condition)
    requires c.kind != RequestProcessed
    ensures TaskChange(st, With(st, c))
  {
    FindMetaSet(st.conditions, c, RequestProcessed);
  }

  lemma PreserveChanges(st: ReinstallStatus, req: Request, inp: Inputs)
    ensures TaskChange(st, PreserveData(st, req, inp).status)
  {
    var (c, d, _) := BackupSummary(req.mode, inp.out, inp.now);
    WithChanges(st, c);
    WithChanges(With(st, c), d);
  }

  lemma DeletionChanges(st: ReinstallStatus, inp: Inputs)
    ensures TaskChange(st, DeleteManifests(st, inp).status)
  {
    var (c, _) := DeletionSummary(st, inp.out, inp.now);
    if c.Some? {
      WithChanges(st, c.value);
    }
  }

  lemma ValidateChanges(st: ReinstallStatus, inp: Inputs)
    ensures TaskChange(st, Validate(st, inp).status)
  {
    if inp.out.allowed {
      WithChanges(st, Condition(RequestValidated, ConditionTrue, Completed, "valid", inp.now));
    } else {
      WithChanges(st, Condition(RequestValidated, ConditionFalse, Failed, "disabled", inp.now));
    }
  }

  lemma TaskChanges(task: Task, st: ReinstallStatus, req: Request, inp: Inputs)
    ensures TaskChange(st, RunTask(task, st, req, inp).status)
  {
    match task
    case Validating => ValidateChanges(st, inp);
    case Preserving => PreserveChanges(st, req, inp);
    case Deleting => DeletionChanges(st, inp);
    case Restoring => WithChanges(st, RestoreSummary(req.mode, inp.out, inp.now).0);
    case _ =>
  }

  /** A task that lets the pass go on has changed nothing; neither has one that ends the request. */
  lemma TaskEnds(task: Task, st: ReinstallStatus, req: Request, inp: Inputs)
    ensures var r := RunTask(task, st, req, inp);
            && (r.stored == st || r.stored == r.status)
            && (!Stops(r) || (!r.requeue && EndsRequest(task)) ==> r.status == r.stored == st)
            && (!Stops(r) && task == Starting ==> st.start.Some?)
  {
  }

  lemma {:induction false} TasksEnd(tasks: seq<Task>, st: ReinstallStatus, req: Request, inp: Inputs)
    ensures match RunTasks(tasks, st, req, inp)
            case Through(s) => s == st
            case Stopped(task, r) => r == RunTask(task, st, req, inp) && Stops(r) && task in tasks
    decreases |tasks|
  {
    if tasks != [] {
      TaskEnds(tasks[0], st, req, inp);
      TasksEnd(tasks[1..], st, req, inp);
    }
  }

  // ----- The end of a pass -------------------------------------------------------------------

  /** What the deferred block adds to what its task left stored. */
  lemma CloseEffect(r: TaskResult, c: Condition, ends: bool, pauses: bool, inp: Inputs, stage: Stage)
    requires c.kind == RequestProcessed
    requires Find(r.status.conditions, RequestProcessed) == Find(r.stored.conditions, RequestProcessed)
    ensures var s := CloseWith(r, c, ends, pauses, inp, stage).status;
            && s.Some?
            && s.value.(conditions := r.stored.conditions, end := r.stored.end) == r.stored
            && (|| Closes(r.stored, s.value, c)
                || Find(s.value.conditions, RequestProcessed) == Find(r.stored.conditions, RequestProcessed))
            && (s.value.end == r.stored.end || (ends && s.value.end == Some(inp.now) && Closes(r.stored, s.value, c)))
  {
    FindMetaSet(r.status.conditions, c, RequestProcessed);
    var (next, send) := Closed(r, c, ends, inp.now);
    if send && inp.patches.closing {
      var s := Merge(r.stored, r.status, next);
      assert s.conditions == r.stored.conditions || s.conditions == next.conditions;
    }
  }

  ghost predicate Closes(st: ReinstallStatus, next: ReinstallStatus, c: Condition) {
    Find(next.conditions, RequestProcessed) == Some(Written(Find(st.conditions, RequestProcessed), c))
  }

  /** Closing with any fitting condition keeps the status sound. */
  lemma CloseIsSound(r: TaskResult, c: Condition, ends: bool, pauses: bool, inp: Inputs, stage: Stage)
    requires c.kind == RequestProcessed && Shaped(c)
    requires Find(r.status.conditions, RequestProcessed) == Find(r.stored.conditions, RequestProcessed)
    requires Sound(r.stored, inp.now) && r.stored.start.Some?
    requires c.reason != Initialized && (ends ==> c.reason == Failed)
    requires r.stored.inProgress != "" ==> r.stored.end.None? && c.reason != Completed
    requires c.reason == Completed ==> r.stored.inProgress == "" && r.stored.end.Some?
    ensures var s := CloseWith(r, c, ends, pauses, inp, stage).status;
            s.Some? && Sound(s.value, inp.now) && s.value.history == r.stored.history
  {
    CloseEffect(r, c, ends, pauses, inp, stage);
  }

  /** The tasks are run on such a status only. */
  ghost predicate Working(st: ReinstallStatus, req: Request) {
    && !Processed(Some(st), req.generation) && !NeedsInit(Some(st), req.generation)
    && ReasonOf(st, RequestProcessed) != Some(Initialized)
  }

  lemma TaskIsSound(task: Task, st: ReinstallStatus, req: Request, inp: Inputs)
    requires Sound(st, inp.now) && st.start.Some?
    ensures var r := RunTask(task, st, req, inp);
            && Sound(r.stored, inp.now) && r.stored.start.Some?
            && r.stored.(conditions := st.conditions) == st
            && Find(r.status.conditions, RequestProcessed) == Find(r.stored.conditions, RequestProcessed)
                == Find(st.conditions, RequestProcessed)
  {
    TaskChanges(task, st, req, inp);
    TaskEnds(task, st, req, inp);
  }

  lemma StoppedIsSound(task: Task, st: ReinstallStatus, req: Request, inp: Inputs)
    requires Sound(st, inp.now) && Working(st, req)
    requires RunTasks(TasksFor(req), st, req, inp) == Stopped(task, RunTask(task, st, req, inp))
    requires Stops(RunTask(task, st, req, inp))
    ensures var s := Work(st, req, inp).status;
            s.Some? && Sound(s.value, inp.now) && s.value.history == st.history
  {
    var r := RunTask(task, st, req, inp);
    TaskIsSound(task, st, req, inp);
    if r.requeue {
      CloseIsSound(r, Overall(ConditionFalse, InProgress, Description(task), inp.now), false, false, inp, AtTask(task));
    } else {
      CloseIsSound(r, Overall(ConditionFalse, Failed, Description(task) + ": " + r.error.value, inp.now),
                   EndsRequest(task), !EndsRequest(task), inp, AtTask(task));
    }
  }

  lemma HistoryAppend(history: seq<Record>, r: Record, generation: string)
    ensures InHistory(history + [r], generation) <==> InHistory(history, generation) || r.generation == generation
  {
    var all := history + [r];
    if InHistory(history, generation) {
      var i :| 0 <= i < |history| && history[i].generation == generation;
      assert all[i].generation == generation;
    }
    if r.generation == generation {
      assert all[|history|].generation == generation;
    }
  }

  lemma FinalizedIsSound(st: ReinstallStatus, req: Request, now: int)
    requires Sound(st, now) && Working(st, req)
    ensures var next := Finalized(st, req.generation, now);
            && Sound(next, now) && next.inProgress == "" && next.end.Some? && next.start.Some?
            && next.conditions == st.conditions && st.history <= next.history
  {
    var end := if st.end.None? then Some(now) else st.end;
    HistoryAppend(st.history, Record(req.generation, st.start, end), req.generation);
  }

  function FinalCondition(r: TaskResult, now: int): Condition {
    if r.error.Some? then Overall(ConditionFalse, InProgress, "final", now)
    else Overall(ConditionTrue, Completed, "done", now)
  }

  lemma WorkThrough(st: ReinstallStatus, req: Request, inp: Inputs)
    requires RunTasks(TasksFor(req), st, req, inp) == Through(st)
    ensures var r := Finalize(st, req, inp);
            Work(st, req, inp) == CloseWith(r, FinalCondition(r, inp.now), false, false, inp, Finalizing)
  {
  }

  lemma FinalizeIsSound(st: ReinstallStatus, req: Request, inp: Inputs)
    requires Sound(st, inp.now) && Working(st, req)
    ensures var r := Finalize(st, req, inp);
            var s := CloseWith(r, FinalCondition(r, inp.now), false, false, inp, Finalizing).status;
            s.Some? && Sound(s.value, inp.now) && st.history <= s.value.history
  {
    var r := Finalize(st, req, inp);
    FinalizedIsSound(st, req, inp.now);
    assert r.stored == st || r.stored == Finalized(st, req.generation, inp.now);
    CloseIsSound(r, FinalCondition(r, inp.now), false, false, inp, Finalizing);
  }

  // ----- New requests ------------------------------------------------------------------------

  ghost predicate Mentions(cs: seq<Condition>, kind: ConditionType) {
    exists c | c in cs :: c.kind == kind
  }

  ghost predicate AllInitial(cs: seq<Condition>) {
    forall c | c in cs :: c.status == ConditionUnknown && c.reason == Initialized
  }

  predicate IsInitial(c: Option<Condition>) {
    c.Some? && c.value.status == ConditionUnknown && c.value.reason == Initialized
  }

  lemma {:induction false} SetAllFinds(cs: seq<Condition>, news: seq<Condition>, kind: ConditionType)
    requires AllInitial(news) && (Mentions(news, kind) || IsInitial(Find(cs, kind)))
    ensures IsInitial(Find(SetAll(cs, news), kind))
    decreases |news|
  {
    if news != [] {
      FindMetaSet(cs, news[0], kind);
      assert news[0] in news;
      SetAllFinds(MetaSet(cs, news[0]), news[1..], kind);
    }
  }

  lemma InitializedIsSound(st: Option<ReinstallStatus>, generation: string, now: int)
    requires st.Some? ==> Sound(st.value, now)
    ensures var next := Initialize(st, generation, now);
            && Sound(next, now) && IsInitial(Find(next.conditions, RequestProcessed))
            && next.inProgress == generation && next.end.None?
            && next.history == (if st.Some? then st.value.history else [])
  {
    var news := InitialConditions(now);
    assert news[0].kind == RequestProcessed && news[0] in news;
    SetAllFinds(Cleared(st, generation).conditions, news, RequestProcessed);
  }

  // ----- Runs --------------------------------------------------------------------------------

  /** A pass for whatever the spec asks at that time, or the reimport machine writing its condition. */
  datatype Step = Process(req: Request, inp: Inputs) | Reimport(c: Condition, at: int)

  function Next(st: Option<ReinstallStatus>, step: Step): Option<ReinstallStatus> {
    match step
    case Process(req, inp) => Pass(st, req, inp).status
    case Reimport(c, _) =>
      if st.Some? && c.kind == ClusterReimported then Some(With(st.value, c)) else st
  }

  function Time(step: Step): int {
    if step.Process? then step.inp.now else step.at
  }

  function Run(st: Option<ReinstallStatus>, steps: seq<Step>): Option<ReinstallStatus>
    decreases |steps|
  {
    if steps == [] then st else Run(Next(st, steps[0]), steps[1..])
  }

  /** The clock never goes back. */
  ghost predicate Timely(steps: seq<Step>, clock: int)
    decreases |steps|
  {
    steps == [] || (clock <= Time(steps[0]) && Timely(steps[1..], Time(steps[0])))
  }

  function EndTime(steps: seq<Step>, clock: int): int {
    if steps == [] then clock else Time(steps[|steps| - 1])
  }

  function HistoryOf(st: Option<ReinstallStatus>): seq<Record> {
    if st.Some? then st.value.history else []
  }

  lemma PassIsSound(st: Option<ReinstallStatus>, req: Request, inp: Inputs)
    requires st.Some? ==> Sound(st.value, inp.now)
    ensures var s := Pass(st, req, inp).status;
            (s.Some? ==> Sound(s.value, inp.now)) && HistoryOf(st) <= HistoryOf(s)
  {
    if Processed(st, req.generation) {
    } else if NeedsInit(st, req.generation) {
      InitializedIsSound(st, req.generation, inp.now);
    } else if ReasonOf(st.value, RequestProcessed) == Some(Initialized) {
      var c := Overall(ConditionFalse, InProgress, "for " + req.generation, inp.now);
      FindMetaSet(st.value.conditions, c, RequestProcessed);
    } else {
      TasksEnd(TasksFor(req), st.value, req, inp);
      var p := RunTasks(TasksFor(req), st.value, req, inp);
      if p.Stopped? {
        StoppedIsSound(p.task, st.value, req, inp);
      } else {
        WorkThrough(st.value, req, inp);
        FinalizeIsSound(st.value, req, inp);
      }
    }
  }

  /**
   Every status a run can leave is sound, whatever is requested and however the passes end: generations
   in the history are distinct and it only grows at its end, an observed generation is recorded, a
   completed request is closed, and an ended request that is still in progress has failed.
   */
  lemma {:induction false} EveryStatusIsSound(st: Option<ReinstallStatus>, steps: seq<Step>, clock: int)
    requires st.Some? ==> Sound(st.value, clock)
    requires Timely(steps, clock)
    ensures var s := Run(st, steps);
            && (s.Some? ==> Sound(s.value, EndTime(steps, clock)))
            && HistoryOf(st) <= HistoryOf(s)
    decreases |steps|
  {
    if steps != [] {
      var step := steps[0];
      if step.Process? {
        PassIsSound(st, step.req, step.inp);
      } else if st.Some? {
        FindMetaSet(st.value.conditions, step.c, RequestProcessed);
      }
      EveryStatusIsSound(Next(st, step), steps[1..], Time(step));
    }
  }
}
