/**
 Users and controller together: admitted spec updates, reinstall passes, the reimport machine and the
 provisioning state in any interleaving, for an instance whose installation is not held.
 */
module Protocol {
  import opened Kube
  import opened Conditions
  import opened Reinstall
  import A = Admission
  import S = ReinstallSafety
  import L = ReinstallLaws

  datatype Step =
    | Update(spec: A.Spec, valid: bool)
    | Pass(inp: Inputs)
    | Reimport(c: Condition)
    | Provision(reason: Option<Reason>)

  /** A refused update leaves the instance as it is; so does a pass without a request. */
  ghost function Next(i: A.Instance, step: Step): A.Instance {
    match step
    case Update(spec, valid) =>
      if A.UpdateAdmitted(i, i.(spec := spec), valid) then i.(spec := spec) else i
    case Pass(inp) =>
      if i.spec.reinstall.Some? then i.(reinstall := Reinstall.Pass(i.reinstall, i.spec.reinstall.value, inp).status) else i
    case Reimport(c) => i.(reinstall := S.Next(i.reinstall, S.Reimport(c, 0)))
    case Provision(reason) => i.(provisioned := reason)
  }

  ghost function Run(i: A.Instance, steps: seq<Step>): A.Instance
    decreases |steps|
  {
    if steps == [] then i else Run(Next(i, steps[0]), steps[1..])
  }

  function Time(step: Step, clock: int): int {
    if step.Pass? then step.inp.now else clock
  }

  ghost predicate RegularStep(step: Step, clock: int) {
    clock <= Time(step, clock) && (step.Update? ==> A.Separate(step.spec))
  }

  /** Specs are well formed and the clock never goes back. */
  ghost predicate Regular(steps: seq<Step>, clock: int)
    decreases |steps|
  {
    steps == [] || (RegularStep(steps[0], clock) && Regular(steps[1..], Time(steps[0], clock)))
  }

  /** What holds throughout: in particular, a requested generation is unused or the one just finished. */
  ghost predicate Inv(i: A.Instance, clock: int) {
    && !i.spec.hold && !i.deleting && A.Separate(i.spec)
    && (i.reinstall.Some? ==> S.Sound(i.reinstall.value, clock))
    && (i.spec.reinstall.Some? ==>
          var g := i.spec.reinstall.value.generation;
          && g != ""
          && (i.reinstall.Some? && InHistory(i.reinstall.value.history, g) ==> i.reinstall.value.observed == g))
  }

  /** The step finishes the requested generation. */
  ghost predicate Finishes(i: A.Instance, step: Step) {
    && step.Pass? && i.spec.reinstall.Some?
    && var g, s := i.spec.reinstall.value.generation, Next(i, step).reinstall;
       s.Some? && s.value.observed == g && !(i.reinstall.Some? && i.reinstall.value.observed == g)
  }

  ghost function FinishedBy(i: A.Instance, step: Step): seq<string> {
    if Finishes(i, step) then [i.spec.reinstall.value.generation] else []
  }

  ghost function Finished(i: A.Instance, steps: seq<Step>): seq<string>
    decreases |steps|
  {
    if steps == [] then [] else FinishedBy(i, steps[0]) + Finished(Next(i, steps[0]), steps[1..])
  }

  function Generations(history: seq<Record>): seq<string> {
    seq(|history|, n requires 0 <= n < |history| => history[n].generation)
  }

  /** What a pass at work adds to the history: at most one record, of the requested generation. */
  lemma WorkHistory(st: ReinstallStatus, req: Request, inp: Inputs)
    requires S.Sound(st, inp.now) && S.Working(st, req) && !InHistory(st.history, req.generation)
    ensures var s := Work(st, req, inp).status;
            && s.Some?
            && (if s.value.observed == req.generation
                then exists r :: s.value.history == st.history + [r] && r.generation == req.generation && S.Ordered(r)
                else s.value.history == st.history && s.value.observed == st.observed)
  {
    S.TasksEnd(TasksFor(req), st, req, inp);
    var p := RunTasks(TasksFor(req), st, req, inp);
    if p.Stopped? {
      S.StoppedIsSound(p.task, st, req, inp);
      StoppedKeeps(p.task, st, req, inp);
    } else {
      S.WorkThrough(st, req, inp);
      S.FinalizeIsSound(st, req, inp);
      FinalizeKeeps(st, req, inp);
    }
  }

  lemma StoppedKeeps(task: Task, st: ReinstallStatus, req: Request, inp: Inputs)
    requires S.Sound(st, inp.now) && S.Working(st, req)
    requires RunTasks(TasksFor(req), st, req, inp) == Stopped(task, RunTask(task, st, req, inp))
    requires Stops(RunTask(task, st, req, inp))
    ensures var s := Work(st, req, inp).status; s.Some? && s.value.observed == st.observed && s.value.history == st.history
  {
    var r := RunTask(task, st, req, inp);
    S.TaskIsSound(task, st, req, inp);
    if r.requeue {
      S.CloseEffect(r, Overall(ConditionFalse, InProgress, Description(task), inp.now), false, false, inp, AtTask(task));
    } else {
      S.CloseEffect(r, Overall(ConditionFalse, Failed, Description(task) + ": " + r.error.value, inp.now),
                    EndsRequest(task), !EndsRequest(task), inp, AtTask(task));
    }
  }

  lemma FinalizeKeeps(st: ReinstallStatus, req: Request, inp: Inputs)
    requires S.Sound(st, inp.now) && S.Working(st, req) && !InHistory(st.history, req.generation)
    ensures var r := Finalize(st, req, inp);
            var s := CloseWith(r, S.FinalCondition(r, inp.now), false, false, inp, Finalizing).status;
            && s.Some?
            && (if s.value.observed == req.generation
                then exists r :: s.value.history == st.history + [r] && r.generation == req.generation && S.Ordered(r)
                else s.value.history == st.history && s.value.observed == st.observed)
  {
    var r := Finalize(st, req, inp);
    S.CloseEffect(r, S.FinalCondition(r, inp.now), false, false, inp, Finalizing);
    S.FinalizedIsSound(st, req, inp.now);
    var next := Finalized(st, req.generation, inp.now);
    var record := next.history[|st.history|];
    assert record in next.history && S.Ordered(record);
    assert next.history == st.history + [record];
    assert r.stored == st || r.stored == next;
  }

  lemma PassHistory(st: Option<ReinstallStatus>, req: Request, inp: Inputs)
    requires st.Some? ==> S.Sound(st.value, inp.now)
    requires req.generation != ""
    requires st.Some? && InHistory(st.value.history, req.generation) ==> st.value.observed == req.generation
    ensures var s := Reinstall.Pass(st, req, inp).status;
            var was := st.Some? && st.value.observed == req.generation;
            if s.Some? && s.value.observed == req.generation && !was
            then exists r :: S.HistoryOf(s) == S.HistoryOf(st) + [r] && r.generation == req.generation && S.Ordered(r)
            else S.HistoryOf(s) == S.HistoryOf(st) && (st.Some? ==> s.Some? && s.value.observed == st.value.observed)
  {
    if Processed(st, req.generation) {
    } else if NeedsInit(st, req.generation) {
    } else if ReasonOf(st.value, RequestProcessed) == Some(Initialized) {
    } else {
      WorkHistory(st.value, req, inp);
    }
  }

  lemma GenerationsAppend(history: seq<Record>, r: Record)
    ensures Generations(history + [r]) == Generations(history) + [r.generation]
  {
  }

  lemma UpdateKeeps(i: A.Instance, spec: A.Spec, valid: bool, clock: int)
    requires Inv(i, clock) && A.Separate(spec)
    ensures Inv(Next(i, Update(spec, valid)), clock)
  {
    var after := i.(spec := spec);
    if A.UpdateAdmitted(i, after, valid) && spec.reinstall != i.spec.reinstall {
      A.NewGenerationIsFresh(i, after, valid);
    }
  }

  lemma PassKeeps(i: A.Instance, inp: Inputs, clock: int)
    requires Inv(i, clock) && clock <= inp.now
    ensures var i' := Next(i, Pass(inp));
            && Inv(i', inp.now)
            && (if Finishes(i, Pass(inp))
                then exists r :: S.HistoryOf(i'.reinstall) == S.HistoryOf(i.reinstall) + [r]
                                 && r.generation == i.spec.reinstall.value.generation && S.Ordered(r)
                else S.HistoryOf(i'.reinstall) == S.HistoryOf(i.reinstall))
  {
    if i.reinstall.Some? {
      L.SoundLater(i.reinstall.value, clock, inp.now);
    }
    if i.spec.reinstall.Some? {
      S.PassIsSound(i.reinstall, i.spec.reinstall.value, inp);
      PassHistory(i.reinstall, i.spec.reinstall.value, inp);
    }
  }

  lemma NextKeeps(i: A.Instance, step: Step, clock: int)
    requires Inv(i, clock) && RegularStep(step, clock)
    ensures Inv(Next(i, step), Time(step, clock))
    ensures Recorded(Next(i, step)) == Recorded(i) + FinishedBy(i, step)
  {
    match step
    case Update(spec, valid) =>
      UpdateKeeps(i, spec, valid, clock);
    case Pass(inp) =>
      PassKeeps(i, inp, clock);
      if Finishes(i, step) {
        var r :| S.HistoryOf(Next(i, step).reinstall) == S.HistoryOf(i.reinstall) + [r]
                 && r.generation == i.spec.reinstall.value.generation && S.Ordered(r);
        GenerationsAppend(S.HistoryOf(i.reinstall), r);
      }
    case Reimport(c) =>
      if i.reinstall.Some? {
        FindMetaSet(i.reinstall.value.conditions, c, RequestProcessed);
      }
    case Provision(_) =>
  }

  function EndTime(steps: seq<Step>, clock: int): int
    decreases |steps|
  {
    if steps == [] then clock else EndTime(steps[1..], Time(steps[0], clock))
  }

  lemma {:induction false} RunKeeps(i: A.Instance, steps: seq<Step>, clock: int)
    requires Inv(i, clock) && Regular(steps, clock)
    ensures Inv(Run(i, steps), EndTime(steps, clock))
    decreases |steps|
  {
    if steps != [] {
      NextKeeps(i, steps[0], clock);
      RunKeeps(Next(i, steps[0]), steps[1..], Time(steps[0], clock));
    }
  }

  ghost function Recorded(i: A.Instance): seq<string> {
    Generations(S.HistoryOf(i.reinstall))
  }

  lemma Associative(a: seq<string>, b: seq<string>, c: seq<string>)
    ensures a + (b + c) == (a + b) + c
  {
  }

  lemma {:induction false} RunRecords(i: A.Instance, steps: seq<Step>, clock: int)
    requires Inv(i, clock) && Regular(steps, clock)
    ensures Recorded(Run(i, steps)) == Recorded(i) + Finished(i, steps)
    decreases |steps|
  {
    if steps != [] {
      var next := Next(i, steps[0]);
      NextKeeps(i, steps[0], clock);
      RunRecords(next, steps[1..], Time(steps[0], clock));
      Associative(Recorded(i), FinishedBy(i, steps[0]), Finished(next, steps[1..]));
    }
  }

  ghost predicate Distinct(s: seq<string>) {
    forall m, n | 0 <= m < n < |s| :: s[m] != s[n]
  }

  lemma InvHistory(i: A.Instance, clock: int)
    requires Inv(i, clock)
    ensures Distinct(Recorded(i))
    ensures forall r | r in S.HistoryOf(i.reinstall) :: S.Ordered(r)
  {
  }

  lemma DistinctTail(a: seq<string>, b: seq<string>)
    requires Distinct(a + b)
    ensures Distinct(b)
  {
    forall m, n | 0 <= m < n < |b|
      ensures b[m] != b[n]
    {
      assert (a + b)[|a| + m] == b[m] && (a + b)[|a| + n] == b[n];
    }
  }

  /**
   In any interleaving, the history records exactly the requests that were finished, in the order in
   which they were, and no generation is ever finished twice. A failed generation is not recorded.
   */
  lemma EachGenerationFinishesOnce(i: A.Instance, steps: seq<Step>, clock: int)
    requires Inv(i, clock) && Regular(steps, clock)
    ensures Recorded(Run(i, steps)) == Recorded(i) + Finished(i, steps)
    ensures Distinct(Finished(i, steps))
    ensures forall r | r in S.HistoryOf(Run(i, steps).reinstall) :: S.Ordered(r)
  {
    RunKeeps(i, steps, clock);
    RunRecords(i, steps, clock);
    InvHistory(Run(i, steps), EndTime(steps, clock));
    DistinctTail(Recorded(i), Finished(i, steps));
  }

  // ----- Failed generations ------------------------------------------------------------------

  /** The last request ended as failed. */
  predicate EndedFailed(st: ReinstallStatus) {
    var c := Find(st.conditions, RequestProcessed);
    st.end.Some? && c.Some? && c.value.status == ConditionFalse && c.value.reason == Failed
  }

  predicate FailedFor(st: Option<ReinstallStatus>, g: string) {
    st.Some? && EndedFailed(st.value) && st.value.inProgress == g && st.value.observed != g
  }

  /** A failed generation is admitted again whenever it would be admitted at all. */
  lemma FailedIsAdmitted(i: A.Instance)
    requires i.spec.reinstall.Some? && FailedFor(i.reinstall, i.spec.reinstall.value.generation)
    ensures var g := i.spec.reinstall.value.generation;
            A.RequestValid(i) <==>
            i.provisioned == Some(Completed) && A.ValidGeneration(g) && !InHistory(i.reinstall.value.history, g)
  {
  }

  /** But it runs again exactly when the status is no longer the one of its failure. */
  lemma RetriedIff(st: ReinstallStatus, req: Request, inp: Inputs)
    requires EndedFailed(st) && st.observed != req.generation
    ensures var o := Reinstall.Pass(Some(st), req, inp);
            if st.inProgress == req.generation then o.stage == Idle && o.status == Some(st)
            else o.stage == Initializing &&
                 (inp.patches.task ==> && o.status.Some? && o.status.value.inProgress == req.generation
                                       && ReasonOf(o.status.value, RequestProcessed) == Some(Initialized))
  {
    var news := InitialConditions(inp.now);
    assert news[0].kind == RequestProcessed && news[0] in news;
    S.SetAllFinds(Cleared(Some(st), req.generation).conditions, news, RequestProcessed);
  }

  predicate PassFor(i: A.Instance, step: Step, g: string) {
    step.Pass? && i.spec.reinstall.Some? && i.spec.reinstall.value.generation == g
  }

  /** The pass takes up a request for another generation than `g`. */
  ghost predicate TakesUpAnother(i: A.Instance, step: Step, g: string) {
    && step.Pass? && i.spec.reinstall.Some? && i.spec.reinstall.value.generation != g
    && var s := Next(i, step).reinstall;
       s.Some? && s.value.inProgress == i.spec.reinstall.value.generation
  }

  lemma FailedStays(i: A.Instance, step: Step, g: string)
    requires FailedFor(i.reinstall, g) && !TakesUpAnother(i, step, g)
    ensures FailedFor(Next(i, step).reinstall, g)
  {
    match step
    case Pass(inp) =>
      if i.spec.reinstall.Some? && i.reinstall.value.observed != i.spec.reinstall.value.generation {
        RetriedIff(i.reinstall.value, i.spec.reinstall.value, inp);
      }
    case Reimport(c) =>
      FindMetaSet(i.reinstall.value.conditions, c, RequestProcessed);
    case _ =>
  }

  /** The pass is for `g` and does something. */
  predicate Acts(i: A.Instance, step: Step, g: string) {
    PassFor(i, step, g) && Reinstall.Pass(i.reinstall, i.spec.reinstall.value, step.inp).stage != Idle
  }

  lemma FailedIsIdle(i: A.Instance, step: Step, g: string)
    requires FailedFor(i.reinstall, g)
    ensures !Acts(i, step, g)
  {
    if PassFor(i, step, g) {
      RetriedIff(i.reinstall.value, i.spec.reinstall.value, step.inp);
    }
  }

  /**
   After a generation has failed, no pass for it does anything, in any interleaving with updates and
   everything else, until a pass has taken up a request for another generation.
   */
  lemma {:induction false} RetryNeedsAnother(i: A.Instance, steps: seq<Step>, g: string, n: nat) returns (k: nat)
    requires FailedFor(i.reinstall, g) && n < |steps| && Acts(Run(i, steps[..n]), steps[n], g)
    ensures k < n && TakesUpAnother(Run(i, steps[..k]), steps[k], g)
    decreases n
  {
    FailedIsIdle(i, steps[0], g);
    assert steps[..0] == [];
    assert n != 0;
    if TakesUpAnother(i, steps[0], g) {
      k := 0;
    } else {
      FailedStays(i, steps[0], g);
      assert steps[..n][1..] == steps[1..][..n - 1];
      var j := RetryNeedsAnother(Next(i, steps[0]), steps[1..], g, n - 1);
      assert steps[..j + 1][1..] == steps[1..][..j];
      k := j + 1;
    }
  }
}
