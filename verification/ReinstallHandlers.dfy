/**
 The operator's reinstall code: it updates the status it has in memory field by field and patches it
 as it goes. `status` is the copy in memory, `stored` the one in the API server.
 */
module ReinstallHandlers {
  import opened Kube
  import opened Conditions
  import opened Reinstall
  import opened Text
  import opened DeletionHandlers
  import P = Preservation
  import R = ReinstallPass

  class ReinstallHandler {
    var status: Option<ReinstallStatus>
    var stored: Option<ReinstallStatus>

    constructor (stored: Option<ReinstallStatus>)
      ensures status == this.stored == stored
    {
      this.status := stored;
      this.stored := stored;
    }

    ghost predicate Synced()
      reads this
    {
      stored == status && status.Some?
    }

    ghost predicate Holds(r: TaskResult, requeue: bool, error: Option<string>)
      reads this
    {
      status == Some(r.status) && stored == Some(r.stored) && requeue == r.requeue && error == r.error
    }

    /** On success the copy in memory is what the server answers. */
    method PatchStatus(base: Option<ReinstallStatus>, ok: bool) returns (failed: bool)
      requires status.Some?
      modifies this
      ensures failed == !ok
      ensures !ok ==> status == old(status) && stored == old(stored)
      ensures ok ==> status == stored == Some(
                if old(stored).None? || base.None? then old(status).value
                else Merge(old(stored).value, base.value, old(status).value))
    {
      if ok {
        var next := status.value;
        if stored.Some? && base.Some? {
          next := Merge(stored.value, base.value, next);
        }
        stored := Some(next);
        status := stored;
      }
      return !ok;
    }

    /** The answer tells whether anything but the transition time changed. */
    method SetReinstallStatusCondition(c: Condition) returns (changed: bool)
      requires status.Some?
      modifies this`status
      ensures status == Some(With(old(status).value, c))
      ensures changed <==> status != old(status)
    {
      var next := With(status.value, c);
      changed := next.conditions != status.value.conditions;
      status := Some(next);
    }

    method ResetFields(generation: string) returns (updateRequired: bool)
      modifies this`status
      ensures var cleared := Cleared(old(status), generation);
              status == Some(cleared) && updateRequired == (old(status) != Some(cleared))
    {
      updateRequired := false;
      if status.None? {
        status := Some(ReinstallStatus([], "", generation, None, None, []));
        updateRequired := true;
      }
      if status.value.inProgress != generation {
        status := Some(status.value.(inProgress := generation, conditions := []));
        updateRequired := true;
      }
      if status.value.start.Some? {
        status := Some(status.value.(start := None));
        updateRequired := true;
      }
      if status.value.end.Some? {
        status := Some(status.value.(end := None));
        updateRequired := true;
      }
    }

    method SetConditions(base: Option<ReinstallStatus>, changed: bool, news: seq<Condition>) returns (updateRequired: bool)
      requires status.Some? && changed == (base != status)
      requires OnePerType(news)
      requires changed ==> Differs(base, status.value, [])
      modifies this`status
      ensures var was := old(status).value;
              status == Some(was.(conditions := SetAll(was.conditions, news)))
      ensures updateRequired == (base != status)
    {
      updateRequired := changed;
      ghost var was := status.value;
      var n := 0;
      while n < |news|
        invariant 0 <= n <= |news| && status.Some?
        invariant status.value.(conditions := was.conditions) == was
        invariant SetAll(status.value.conditions, news[n..]) == SetAll(was.conditions, news)
        invariant if updateRequired then Differs(base, status.value, news[..n]) else base == status
      {
        assert news[n..][1..] == news[n + 1..];
        Resetting(base, status.value, news, n, updateRequired);
        var written := SetReinstallStatusCondition(news[n]);
        updateRequired := updateRequired || written;
        n := n + 1;
      }
    }

    method InitializeReinstallStatus(generation: string, inp: Inputs) returns (failed: bool)
      requires stored == status
      modifies this
      ensures var next := Initialize(old(stored), generation, inp.now);
              && failed == (old(stored) != Some(next) && !inp.patches.task)
              && stored == if failed then old(stored) else Some(next)
    {
      var base := status;
      var updateRequired := ResetFields(generation);
      InitialConditionsDiffer(inp.now);
      updateRequired := SetConditions(base, updateRequired, InitialConditions(inp.now));
      failed := false;
      if updateRequired {
        failed := PatchStatus(base, inp.patches.task);
      }
    }

    // ----- Tasks -----------------------------------------------------------------------------

    method EnsureValidReinstallRequest(inp: Inputs) returns (requeue: bool, err: Option<string>)
      requires Synced()
      modifies this
      ensures Holds(Validate(old(status).value, inp), requeue, err)
    {
      var base := status;
      requeue, err := false, None;
      var c := Condition(RequestValidated, ConditionTrue, Completed, "valid", inp.now);
      if !inp.out.allowed {
        err := Some("disabled");
        c := Condition(RequestValidated, ConditionFalse, Failed, "disabled", inp.now);
      }
      var updateRequired := SetReinstallStatusCondition(c);
      if updateRequired {
        requeue := true;
        var failed := PatchStatus(base, inp.patches.task);
        if failed {
          err := Wrapped(err);
        }
      }
    }

    method EnsureStartTimeIsSet(inp: Inputs) returns (requeue: bool, err: Option<string>)
      requires Synced()
      modifies this
      ensures Holds(SetStartTime(old(status).value, inp), requeue, err)
    {
      requeue, err := false, None;
      if status.value.start.None? {
        var base := status;
        status := Some(status.value.(start := Some(inp.now)));
        var failed := PatchStatus(base, inp.patches.task);
        requeue := true;
        if failed {
          err := Wrapped(None);
        }
      }
    }

    method EnsureDataIsPreserved(req: Request, inp: Inputs) returns (requeue: bool, err: Option<string>)
      requires Synced()
      modifies this
      ensures Holds(PreserveData(old(status).value, req, inp), requeue, err)
    {
      requeue, err := false, None;
      var backedUp, identified: Condition;
      if req.mode == P.NoPreservation {
        backedUp := BackedUp(ConditionFalse, PreservationNotRequired, "none", inp.now);
        identified := Identified(ConditionFalse, PreservationNotRequired, "none", inp.now);
      } else if inp.out.backup.Some? {
        err := inp.out.backup;
        backedUp := BackedUp(ConditionFalse, Failed, inp.out.backup.value, inp.now);
        identified := Identified(ConditionFalse, Failed, "failed", inp.now);
      } else {
        backedUp, identified, err := DataPreservationSummary(req.mode, inp.out.preserved, inp.now);
      }
      var base := status;
      TwoWrites(base.value.conditions, backedUp, identified);
      MetaSetSame(base.value.conditions, backedUp);
      var updateRequired := SetReinstallStatusCondition(backedUp);
      var changed := SetReinstallStatusCondition(identified);
      if changed {
        updateRequired := true;
      }
      if updateRequired {
        requeue := true;
        var failed := PatchStatus(base, inp.patches.task);
        if failed {
          err := Wrapped(err);
        }
      }
    }

    method DataPreservationSummary(mode: P.Mode, tally: Tally, now: int)
      returns (backedUp: Condition, identified: Condition, err: Option<string>)
      ensures forall out: Outcomes | mode != P.NoPreservation && out.backup.None? && out.preserved == tally ::
                BackupSummary(mode, out, now) == (backedUp, identified, err)
    {
      if tally.Uncounted? {
        return BackedUp(ConditionFalse, Failed, tally.error, now), Identified(ConditionFalse, Failed, tally.error, now),
               Some(tally.error);
      }
      var total := tally.identity + tally.others;
      backedUp := BackedUp(ConditionTrue, Completed, "n=" + FormatInt(total), now);
      if total == 0 {
        backedUp := BackedUp(ConditionFalse, DataUnavailable, "empty", now);
      }
      identified, err := Identified(ConditionTrue, DataAvailable, "n=" + FormatInt(tally.identity), now), None;
      if tally.identity == 0 {
        if mode == P.ClusterIdentity {
          return backedUp, Identified(ConditionFalse, Failed, "no id", now), Some("no id");
        }
        identified := Identified(ConditionFalse, DataUnavailable, "no id", now);
      }
    }

    method EnsureRenderedManifestsAreDeleted(inp: Inputs) returns (requeue: bool, err: Option<string>)
      requires Synced()
      modifies this
      ensures Holds(DeleteManifests(old(status).value, inp), requeue, err)
    {
      requeue, err := false, None;
      var was := Find(status.value.conditions, ManifestsDeleted);
      var c := was;
      if inp.out.cluster.Some? {
        err := inp.out.cluster;
        c := Some(DeletionState(ConditionFalse, Failed, inp.out.cluster.value, inp.now));
      } else if was.None? || was.value.reason == Initialized {
        c := Some(DeletionState(ConditionFalse, InProgress, "going", inp.now));
      } else if was.value.reason != Failed && was.value.reason != Completed {
        match inp.out.deletion {
          case Finished =>
            c := Some(DeletionState(ConditionTrue, Completed, "gone", inp.now));
          case StillWaiting =>
            requeue := true;
          case TookTooLong =>
            c := Some(DeletionState(ConditionFalse, TimedOut, "late", inp.now));
            err := Some("late");
          case WentWrong(error) =>
            c := Some(DeletionState(ConditionFalse, Failed, error, inp.now));
            err := Some(error);
        }
      }
      if c.Some? {
        var base := status;
        if c == was {
          MetaSetSame(base.value.conditions, c.value);
        }
        var changed := SetReinstallStatusCondition(c.value);
        if changed {
          var failed := PatchStatus(base, inp.patches.task);
          if failed {
            err := Wrapped(err);
            return;
          }
          requeue := err.None?;
        }
      }
    }

    method EnsurePreservedDataIsRestored(req: Request, inp: Inputs) returns (requeue: bool, err: Option<string>)
      requires Synced()
      modifies this
      ensures Holds(RestoreData(old(status).value, req, inp), requeue, err)
    {
      requeue, err := false, None;
      var c := Condition(DataRestored, ConditionFalse, PreservationNotRequired, "none", inp.now);
      if req.mode != P.NoPreservation {
        if inp.out.restore.Some? {
          err := inp.out.restore;
          c := Condition(DataRestored, ConditionFalse, Failed, inp.out.restore.value, inp.now);
        } else if inp.out.restored.Uncounted? {
          err := Some(inp.out.restored.error);
          c := Condition(DataRestored, ConditionFalse, Failed, inp.out.restored.error, inp.now);
        } else {
          var identity, others := inp.out.restored.identity, inp.out.restored.others;
          c := Condition(DataRestored, ConditionTrue, Completed,
                         "n=" + FormatInt(identity) + "," + FormatInt(others), inp.now);
          if identity + others == 0 {
            c := Condition(DataRestored, ConditionFalse, DataUnavailable, "empty", inp.now);
            if req.mode == P.ClusterIdentity {
              c := c.(reason := Failed);
              err := Some("empty");
            }
          }
        }
      }
      var base := status;
      var changed := SetReinstallStatusCondition(c);
      if changed {
        requeue := true;
        var failed := PatchStatus(base, inp.patches.task);
        if failed {
          err := Wrapped(err);
        }
      }
    }

    method RunTask(task: Task, req: Request, inp: Inputs) returns (requeue: bool, err: Option<string>)
      requires Synced()
      modifies this
      ensures Holds(Reinstall.RunTask(task, old(status).value, req, inp), requeue, err)
    {
      match task {
        case Validating => requeue, err := EnsureValidReinstallRequest(inp);
        case Starting => requeue, err := EnsureStartTimeIsSet(inp);
        case Labelling => requeue, err := false, inp.out.labels;
        case Preserving => requeue, err := EnsureDataIsPreserved(req, inp);
        case Deleting => requeue, err := EnsureRenderedManifestsAreDeleted(inp);
        case Restoring => requeue, err := EnsurePreservedDataIsRestored(req, inp);
      }
    }

    method FinalizeReinstallRequest(req: Request, inp: Inputs) returns (err: Option<string>)
      requires Synced()
      modifies this
      ensures Holds(Finalize(old(status).value, req, inp), false, err)
    {
      if inp.out.cleanup.Some? {
        return inp.out.cleanup;
      }
      if inp.out.diff.Some? {
        return inp.out.diff;
      }
      var base := status;
      var st := status.value;
      if st.observed != req.generation {
        st := st.(observed := req.generation);
      }
      if st.inProgress != "" {
        st := st.(inProgress := "");
      }
      if st.end.None? {
        st := st.(end := Some(inp.now));
      }
      var record := Record(req.generation, st.start, st.end);
      var known := false;
      for n := 0 to |st.history|
        invariant known <==> exists i | 0 <= i < n :: st.history[i].generation == req.generation
      {
        known := known || st.history[n].generation == req.generation;
      }
      if !known {
        st := st.(history := st.history + [record]);
      }
      status := Some(st);
      if status != base {
        var failed := PatchStatus(base, inp.patches.task);
        if failed {
          return Wrapped(None);
        }
      }
      return None;
    }

    // ----- The request -----------------------------------------------------------------------

    /** The deferred block of ProcessRequest; `stage` records how far the pass got. */
    method Close(c: Condition, requeue: bool, err: Option<string>, setEndtime: bool, applyPause: bool, inp: Inputs, ghost stage: Stage)
      returns (failed: bool, paused: bool)
      requires status.Some? && stored.Some? && (setEndtime ==> err.Some?)
      modifies this
      ensures var r := TaskResult(old(status).value, old(stored).value, requeue, err);
              var o := CloseWith(r, c, setEndtime, applyPause, inp, stage);
              && stored == o.status && failed == o.failed && paused == o.paused
    {
      var base := status;
      if setEndtime {
        status := Some(status.value.(end := Some(inp.now)));
      }
      var changed := SetReinstallStatusCondition(c);
      failed, paused := err.Some?, false;
      if changed || setEndtime {
        var lost := PatchStatus(base, inp.patches.closing);
        if lost {
          return true, false;
        }
      }
      paused := applyPause && inp.patches.pause;
    }

    method RunTasks(tasks: seq<Task>, req: Request, inp: Inputs) returns (stopped: Option<Task>, requeue: bool, err: Option<string>)
      requires Synced()
      modifies this
      ensures status.Some? && stored.Some?
      ensures Reinstall.RunTasks(tasks, old(status).value, req, inp) ==
              match stopped
              case None => Through(status.value)
              case Some(task) => Stopped(task, TaskResult(status.value, stored.value, requeue, err))
      ensures stopped.None? ==> Synced()
      ensures stopped.Some? && !requeue ==> err.Some?
    {
      stopped, requeue, err := None, false, None;
      var n := 0;
      while n < |tasks| && stopped.None?
        invariant 0 <= n <= |tasks| && status.Some? && stored.Some?
        invariant stopped.None? ==> Synced() && Reinstall.RunTasks(tasks, old(status).value, req, inp) ==
                                                 Reinstall.RunTasks(tasks[n..], status.value, req, inp)
        invariant stopped.Some? ==> (requeue || err.Some?) && Reinstall.RunTasks(tasks, old(status).value, req, inp) ==
                                    Stopped(stopped.value, TaskResult(status.value, stored.value, requeue, err))
      {
        assert tasks[n..][1..] == tasks[n + 1..];
        requeue, err := RunTask(tasks[n], req, inp);
        if requeue || err.Some? {
          stopped := Some(tasks[n]);
        }
        n := n + 1;
      }
    }

    method ProcessRequest(req: Request, inp: Inputs) returns (requeue: bool, failed: bool, paused: bool)
      requires stored == status
      modifies this
      ensures var o := Pass(old(stored), req, inp);
              stored == o.status && requeue == o.requeue && failed == o.failed && paused == o.paused
    {
      requeue, failed, paused := false, false, false;
      if Processed(status, req.generation) {
        return;
      }
      if NeedsInit(status, req.generation) {
        failed := InitializeReinstallStatus(req.generation, inp);
        requeue := !failed;
        return;
      }
      if ReasonOf(status.value, RequestProcessed) == Some(Initialized) {
        var base := status;
        status := Some(status.value.(start := Some(inp.now)));
        var _ := SetReinstallStatusCondition(Overall(ConditionFalse, InProgress, "for " + req.generation, inp.now));
        failed := PatchStatus(base, inp.patches.task);
        requeue := !failed;
        return;
      }
      var stopped, err;
      stopped, requeue, err := RunTasks(TasksFor(req), req, inp);
      var c: Condition;
      if stopped.Some? {
        var task := stopped.value;
        if requeue {
          c := Overall(ConditionFalse, InProgress, Description(task), inp.now);
          failed, paused := Close(c, requeue, err, false, false, inp, AtTask(task));
        } else {
          c := Overall(ConditionFalse, Failed, Description(task) + ": " + err.value, inp.now);
          failed, paused := Close(c, requeue, err, EndsRequest(task), !EndsRequest(task), inp, AtTask(task));
        }
        return;
      }
      c := Overall(ConditionFalse, InProgress, "final", inp.now);
      err := FinalizeReinstallRequest(req, inp);
      if err.None? {
        c := Overall(ConditionTrue, Completed, "done", inp.now);
      }
      requeue := false;
      failed, paused := Close(c, requeue, err, false, false, inp, Finalizing);
    }
  }

  lemma InitialConditionsDiffer(now: int)
    ensures OnePerType(InitialConditions(now))
  {
    assert forall i, j | 0 <= i < j < |CONDITION_TYPES| :: CONDITION_TYPES[i] != CONDITION_TYPES[j];
  }

  /** Labels the instance's secrets for preservation; those that do not exist are passed over. */
  method ApplyPreservedLabel(api: ApiServer, inst: R.Instance, faults: P.Faults) returns (failed: bool)
    modifies api`objects
    ensures (api.World(), failed) == R.LabelSecrets(old(api.World()), inst, inst.secrets, faults)
  {
    var names := inst.secrets;
    for n := 0 to |names|
      invariant api.events == old(api.events)
      invariant R.LabelSecrets(api.World(), inst, names[n..], faults) == R.LabelSecrets(old(api.World()), inst, names, faults)
    {
      assert names[n..][1..] == names[n + 1..];
      var id := Identity("v1", "Secret", inst.namespace, names[n]);
      if id in faults.unreadable {
        return true;
      }
      if id in api.objects {
        var secret := api.objects[id];
        if PreserveInternal !in secret.labels || secret.labels[PreserveInternal] != P.REQUIRED_RESOURCE {
          if id in faults.unwritable {
            return true;
          }
          api.objects := api.objects[id := secret.(labels := secret.labels[PreserveInternal := P.REQUIRED_RESOURCE])];
        }
      }
    }
    return false;
  }

  /** A difference that no later write of other conditions can undo. */
  ghost predicate Differs(base: Option<ReinstallStatus>, now: ReinstallStatus, done: seq<Condition>) {
    || base.None?
    || base.value.(conditions := now.conditions) != now
    || exists c | c in done :: Find(base.value.conditions, c.kind) != Find(now.conditions, c.kind)
  }

  lemma Resetting(base: Option<ReinstallStatus>, st: ReinstallStatus, news: seq<Condition>, n: nat, differs: bool)
    requires n < |news| && forall i | 0 <= i < n :: news[i].kind != news[n].kind
    requires if differs then Differs(base, st, news[..n]) else base == Some(st)
    ensures var next := With(st, news[n]);
            differs || next != st ==> Differs(base, next, news[..n + 1])
  {
    var c := news[n];
    var next := With(st, c);
    assert c in news[..n + 1];
    if differs {
      if d :| base.Some? && d in news[..n] && Find(base.value.conditions, d.kind) != Find(st.conditions, d.kind) {
        assert d in news[..n + 1];
        FindMetaSet(st.conditions, c, d.kind);
      }
    } else if next != st {
      FindMetaSet(st.conditions, c, c.kind);
      MetaSetSame(st.conditions, c);
    }
  }
}
