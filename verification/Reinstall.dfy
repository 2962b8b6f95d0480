/**
 The reinstall state machine as a function of the stored status: what one pass leaves in the API
 server, whatever its tasks answer and whichever of its status patches get through. Every pass starts
 from the stored status, runs the tasks from the top and stops at the first one that has something to
 write. `ReinstallHandlers` has the operator's code, proved to compute exactly this.
 */
module Reinstall {
  import opened Kube
  import opened Conditions
  import opened Text
  import P = Preservation

  datatype Record = Record(generation: string, start: Option<int>, end: Option<int>)

  datatype ReinstallStatus = ReinstallStatus(
    conditions: seq<Condition>,
    observed: string,
    inProgress: string,
    start: Option<int>,
    end: Option<int>,
    history: seq<Record>)

  datatype Request = Request(generation: string, mode: P.Mode)

  datatype Tally = Uncounted(error: string) | Counted(identity: nat, others: nat)

  datatype Answer = Finished | StillWaiting | TookTooLong | WentWrong(error: string)

  /** What the operations called by the tasks answer, if called; the texts are their errors. */
  datatype Outcomes = Outcomes(
    allowed: bool,
    labels: Option<string>,
    backup: Option<string>,
    preserved: Tally,
    cluster: Option<string>,
    deletion: Answer,
    restore: Option<string>,
    restored: Tally,
    cleanup: Option<string>,
    diff: Option<string>)

  /**
   `task` says whether the patch of the step at which the pass stops gets through (no pass sends two),
   `closing` whether the patch sent on the way out does, `pause` the one of the pause annotation.
   */
  datatype Patches = Patches(task: bool, closing: bool, pause: bool)

  datatype Inputs = Inputs(now: int, out: Outcomes, patches: Patches)

  datatype Task = Validating | Starting | Labelling | Preserving | Deleting | Restoring

  /** The same for every request. */
  function TasksFor(req: Request): seq<Task> {
    [Validating, Starting, Labelling, Preserving, Deleting, Restoring]
  }

  function Description(task: Task): string {
    match task
    case Validating => "valid"
    case Starting => "start"
    case Labelling => "label"
    case Preserving => "save"
    case Deleting => "delete"
    case Restoring => "load"
  }

  /** A failed deletion pauses the instance; any other failure ends the request. */
  predicate EndsRequest(task: Task) {
    task != Deleting
  }

  function With(st: ReinstallStatus, c: Condition): ReinstallStatus {
    st.(conditions := MetaSet(st.conditions, c))
  }

  /** The reason of a condition, if the status has it. */
  function ReasonOf(st: ReinstallStatus, kind: ConditionType): Option<Reason> {
    match Find(st.conditions, kind)
    case None => None
    case Some(c) => Some(c.reason)
  }

  // ----- Requests ----------------------------------------------------------------------------

  predicate Processed(st: Option<ReinstallStatus>, generation: string) {
    st.Some? &&
    var s := st.value;
    var c := Find(s.conditions, RequestProcessed);
    || s.observed == generation
    || (&& c.Some? && s.inProgress == generation && s.end.Some?
        && (c.value.reason == Completed || c.value.reason == Failed || c.value.reason == TimedOut)
        && c.value.status != ConditionUnknown)
  }

  predicate NeedsInit(st: Option<ReinstallStatus>, generation: string) {
    st.None? || st.value.inProgress != generation || Find(st.value.conditions, RequestProcessed).None?
  }

  const CONDITION_TYPES := [
    RequestProcessed, RequestValidated, DataBackedUp, IdentityDetected, ManifestsDeleted, DataRestored, ClusterReimported]

  /** One fresh condition of each type. */
  function InitialConditions(now: int): (cs: seq<Condition>)
    ensures |cs| == |CONDITION_TYPES|
    ensures forall i | 0 <= i < |cs| :: cs[i] == Initial(CONDITION_TYPES[i], now)
  {
    seq(|CONDITION_TYPES|, i requires 0 <= i < |CONDITION_TYPES| => Initial(CONDITION_TYPES[i], now))
  }

  function Initial(kind: ConditionType, now: int): Condition {
    Condition(kind, ConditionUnknown, Initialized, "init", now)
  }

  function SetAll(cs: seq<Condition>, news: seq<Condition>): seq<Condition>
    decreases |news|
  {
    if news == [] then cs else SetAll(MetaSet(cs, news[0]), news[1..])
  }

  function Cleared(st: Option<ReinstallStatus>, generation: string): ReinstallStatus {
    var s := if st.None? then ReinstallStatus([], "", generation, None, None, []) else st.value;
    s.(inProgress := generation, start := None, end := None,
       conditions := if s.inProgress != generation then [] else s.conditions)
  }

  function Initialize(st: Option<ReinstallStatus>, generation: string, now: int): ReinstallStatus {
    var s := Cleared(st, generation);
    s.(conditions := SetAll(s.conditions, InitialConditions(now)))
  }

  // ----- Tasks -------------------------------------------------------------------------------

  /** A task's end: the status in memory, the one stored, and what it answers. */
  datatype TaskResult = TaskResult(status: ReinstallStatus, stored: ReinstallStatus, requeue: bool, error: Option<string>)

  function Quiet(st: ReinstallStatus, error: Option<string>): TaskResult {
    TaskResult(st, st, false, error)
  }

  function Wrapped(error: Option<string>): Option<string> {
    if error.None? then Some("update") else Some("update: " + error.value)
  }

  /** A changed status is patched, and the pass will be repeated. */
  function Patched(st: ReinstallStatus, next: ReinstallStatus, error: Option<string>, ok: bool): TaskResult {
    if ok then TaskResult(next, next, true, error) else TaskResult(next, st, true, Wrapped(error))
  }

  function Validate(st: ReinstallStatus, inp: Inputs): TaskResult {
    var c := if inp.out.allowed
             then Condition(RequestValidated, ConditionTrue, Completed, "valid", inp.now)
             else Condition(RequestValidated, ConditionFalse, Failed, "disabled", inp.now);
    var error := if inp.out.allowed then None else Some("disabled");
    var next := With(st, c);
    if next == st then Quiet(st, error) else Patched(st, next, error, inp.patches.task)
  }

  function SetStartTime(st: ReinstallStatus, inp: Inputs): TaskResult {
    if st.start.Some? then Quiet(st, None)
    else Patched(st, st.(start := Some(inp.now)), None, inp.patches.task)
  }

  function BackedUp(status: ConditionStatus, reason: Reason, message: string, now: int): Condition {
    Condition(DataBackedUp, status, reason, message, now)
  }

  function Identified(status: ConditionStatus, reason: Reason, message: string, now: int): Condition {
    Condition(IdentityDetected, status, reason, message, now)
  }

  /** The conditions after a backup, and its error. */
  function BackupSummary(mode: P.Mode, out: Outcomes, now: int): (Condition, Condition, Option<string>) {
    if mode == P.NoPreservation then
      (BackedUp(ConditionFalse, PreservationNotRequired, "none", now),
       Identified(ConditionFalse, PreservationNotRequired, "none", now), None)
    else if out.backup.Some? then
      (BackedUp(ConditionFalse, Failed, out.backup.value, now),
       Identified(ConditionFalse, Failed, "failed", now), out.backup)
    else
      match out.preserved
      case Uncounted(error) =>
        (BackedUp(ConditionFalse, Failed, error, now), Identified(ConditionFalse, Failed, error, now), Some(error))
      case Counted(identity, others) =>
        var backedUp := if identity + others == 0
                        then BackedUp(ConditionFalse, DataUnavailable, "empty", now)
                        else BackedUp(ConditionTrue, Completed, "n=" + FormatInt(identity + others), now);
        if identity > 0 then
          (backedUp, Identified(ConditionTrue, DataAvailable, "n=" + FormatInt(identity), now), None)
        else if mode == P.ClusterIdentity then
          (backedUp, Identified(ConditionFalse, Failed, "no id", now), Some("no id"))
        else (backedUp, Identified(ConditionFalse, DataUnavailable, "no id", now), None)
  }

  function PreserveData(st: ReinstallStatus, req: Request, inp: Inputs): TaskResult {
    var (backedUp, identified, error) := BackupSummary(req.mode, inp.out, inp.now);
    var next := With(With(st, backedUp), identified);
    if next == st then Quiet(st, error) else Patched(st, next, error, inp.patches.task)
  }

  function DeletionState(status: ConditionStatus, reason: Reason, message: string, now: int): Condition {
    Condition(ManifestsDeleted, status, reason, message, now)
  }

  /** Deletion has been announced and has neither finished nor failed. */
  predicate DeletionOpen(st: ReinstallStatus) {
    var reason := ReasonOf(st, ManifestsDeleted);
    reason.Some? && reason.value != Initialized && reason.value != Failed && reason.value != Completed
  }

  predicate DeletionUnannounced(st: ReinstallStatus) {
    var reason := ReasonOf(st, ManifestsDeleted);
    reason.None? || reason.value == Initialized
  }

  predicate DeletionCalled(st: ReinstallStatus, out: Outcomes) {
    out.cluster.None? && DeletionOpen(st)
  }

  /** The condition to write, if any, and the error. */
  function DeletionSummary(st: ReinstallStatus, out: Outcomes, now: int): (Option<Condition>, Option<string>) {
    if out.cluster.Some? then (Some(DeletionState(ConditionFalse, Failed, out.cluster.value, now)), out.cluster)
    else if DeletionUnannounced(st) then (Some(DeletionState(ConditionFalse, InProgress, "going", now)), None)
    else if !DeletionOpen(st) then (None, None)
    else
      match out.deletion
      case Finished => (Some(DeletionState(ConditionTrue, Completed, "gone", now)), None)
      case StillWaiting => (None, None)
      case TookTooLong => (Some(DeletionState(ConditionFalse, TimedOut, "late", now)), Some("late"))
      case WentWrong(error) => (Some(DeletionState(ConditionFalse, Failed, error, now)), Some(error))
  }

  function DeleteManifests(st: ReinstallStatus, inp: Inputs): TaskResult {
    var (c, error) := DeletionSummary(st, inp.out, inp.now);
    var next := if c.Some? then With(st, c.value) else st;
    if next == st then TaskResult(st, st, DeletionCalled(st, inp.out) && inp.out.deletion == StillWaiting, error)
    else if inp.patches.task then TaskResult(next, next, error.None?, error)
    else TaskResult(next, st, false, Wrapped(error))
  }

  function RestoreSummary(mode: P.Mode, out: Outcomes, now: int): (Condition, Option<string>) {
    if mode == P.NoPreservation then (Condition(DataRestored, ConditionFalse, PreservationNotRequired, "none", now), None)
    else if out.restore.Some? then (Condition(DataRestored, ConditionFalse, Failed, out.restore.value, now), out.restore)
    else
      match out.restored
      case Uncounted(error) => (Condition(DataRestored, ConditionFalse, Failed, error, now), Some(error))
      case Counted(identity, others) =>
        if identity + others > 0 then
          (Condition(DataRestored, ConditionTrue, Completed,
                     "n=" + FormatInt(identity) + "," + FormatInt(others), now), None)
        else if mode == P.ClusterIdentity then
          (Condition(DataRestored, ConditionFalse, Failed, "empty", now), Some("empty"))
        else (Condition(DataRestored, ConditionFalse, DataUnavailable, "empty", now), None)
  }

  function RestoreData(st: ReinstallStatus, req: Request, inp: Inputs): TaskResult {
    var (c, error) := RestoreSummary(req.mode, inp.out, inp.now);
    var next := With(st, c);
    if next == st then Quiet(st, error) else Patched(st, next, error, inp.patches.task)
  }

  function RunTask(task: Task, st: ReinstallStatus, req: Request, inp: Inputs): TaskResult {
    match task
    case Validating => Validate(st, inp)
    case Starting => SetStartTime(st, inp)
    case Labelling => Quiet(st, inp.out.labels)
    case Preserving => PreserveData(st, req, inp)
    case Deleting => DeleteManifests(st, inp)
    case Restoring => RestoreData(st, req, inp)
  }

  predicate Stops(r: TaskResult) {
    r.requeue || r.error.Some?
  }

  /** The first task that asks for another pass or fails, with its result. */
  datatype Progress = Stopped(task: Task, result: TaskResult) | Through(status: ReinstallStatus)

  function RunTasks(tasks: seq<Task>, st: ReinstallStatus, req: Request, inp: Inputs): Progress
    decreases |tasks|
  {
    if tasks == [] then Through(st)
    else
      var r := RunTask(tasks[0], st, req, inp);
      if Stops(r) then Stopped(tasks[0], r) else RunTasks(tasks[1..], r.status, req, inp)
  }

  // ----- Finalizing and closing --------------------------------------------------------------

  predicate InHistory(history: seq<Record>, generation: string) {
    exists i | 0 <= i < |history| :: history[i].generation == generation
  }

  function Finalized(st: ReinstallStatus, generation: string, now: int): ReinstallStatus {
    var end := if st.end.None? then Some(now) else st.end;
    var record := Record(generation, st.start, end);
    st.(observed := generation, inProgress := "", end := end,
        history := if InHistory(st.history, generation) then st.history else st.history + [record])
  }

  function Finalize(st: ReinstallStatus, req: Request, inp: Inputs): TaskResult {
    if inp.out.cleanup.Some? then Quiet(st, inp.out.cleanup)
    else if inp.out.diff.Some? then Quiet(st, inp.out.diff)
    else
      var next := Finalized(st, req.generation, inp.now);
      if next == st then Quiet(st, None)
      else if inp.patches.task then TaskResult(next, next, false, None)
      else TaskResult(next, st, false, Wrapped(None))
  }

  function Overall(status: ConditionStatus, reason: Reason, message: string, now: int): Condition {
    Condition(RequestProcessed, status, reason, message, now)
  }

  /** A merge patch carries the fields that differ between its base and the new value; a list goes whole. */
  function Merge(stored: ReinstallStatus, base: ReinstallStatus, next: ReinstallStatus): ReinstallStatus {
    ReinstallStatus(
      if next.conditions == base.conditions then stored.conditions else next.conditions,
      if next.observed == base.observed then stored.observed else next.observed,
      if next.inProgress == base.inProgress then stored.inProgress else next.inProgress,
      if next.start == base.start then stored.start else next.start,
      if next.end == base.end then stored.end else next.end,
      if next.history == base.history then stored.history else next.history)
  }

  /** The deferred block of a pass: what it wants stored, and whether it sends a patch at all. */
  function Closed(r: TaskResult, c: Condition, ends: bool, now: int): (ReinstallStatus, bool) {
    var timed := if ends then r.status.(end := Some(now)) else r.status;
    var next := With(timed, c);
    (next, ends || next.conditions != r.status.conditions)
  }

  // ----- One pass ----------------------------------------------------------------------------

  /** How far a pass gets. */
  datatype Stage = Idle | Initializing | Beginning | AtTask(task: Task) | Finalizing

  /** What a pass leaves stored and answers; `paused` says that it put the pause annotation on. */
  datatype Outcome = Outcome(status: Option<ReinstallStatus>, requeue: bool, failed: bool, paused: bool, stage: Stage)

  function CloseWith(r: TaskResult, c: Condition, ends: bool, pauses: bool, inp: Inputs, stage: Stage): Outcome {
    var (next, send) := Closed(r, c, ends, inp.now);
    if !send then Outcome(Some(r.stored), r.requeue, r.error.Some?, pauses && inp.patches.pause, stage)
    else if inp.patches.closing then
      Outcome(Some(Merge(r.stored, r.status, next)), r.requeue, r.error.Some?, pauses && inp.patches.pause, stage)
    else Outcome(Some(r.stored), r.requeue, true, false, stage)
  }

  function Work(st: ReinstallStatus, req: Request, inp: Inputs): Outcome {
    match RunTasks(TasksFor(req), st, req, inp)
    case Stopped(task, r) =>
      if r.requeue then
        CloseWith(r, Overall(ConditionFalse, InProgress, Description(task), inp.now), false, false, inp, AtTask(task))
      else
        CloseWith(r, Overall(ConditionFalse, Failed, Description(task) + ": " + r.error.value, inp.now),
                  EndsRequest(task), !EndsRequest(task), inp, AtTask(task))
    case Through(s) =>
      var r := Finalize(s, req, inp);
      var c := if r.error.Some? then Overall(ConditionFalse, InProgress, "final", inp.now)
               else Overall(ConditionTrue, Completed, "done", inp.now);
      CloseWith(r, c, false, false, inp, Finalizing)
  }

  function Begun(st: ReinstallStatus, req: Request, now: int): ReinstallStatus {
    With(st.(start := Some(now)), Overall(ConditionFalse, InProgress, "for " + req.generation, now))
  }

  function Pass(st: Option<ReinstallStatus>, req: Request, inp: Inputs): Outcome {
    if Processed(st, req.generation) then Outcome(st, false, false, false, Idle)
    else if NeedsInit(st, req.generation) then
      var next := Initialize(st, req.generation, inp.now);
      if st == Some(next) || inp.patches.task then Outcome(Some(next), true, false, false, Initializing)
      else Outcome(st, false, true, false, Initializing)
    else if ReasonOf(st.value, RequestProcessed) == Some(Initialized) then
      if inp.patches.task then Outcome(Some(Begun(st.value, req, inp.now)), true, false, false, Beginning)
      else Outcome(st, false, true, false, Beginning)
    else Work(st.value, req, inp)
  }
}
