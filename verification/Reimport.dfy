/**
 The reimport machine: after a reinstalled cluster is provisioned, wait out a grace period measured
 from the last flip of the Provisioned condition, then apply the import manifests once.
 */
module Reimport {
  import opened Kube
  import opened Conditions
  import opened Text

  datatype ClusterConditionKind = Available | ImportSucceeded | Joined | OtherKind(name: string)
  datatype ClusterCondition = ClusterCondition(kind: ClusterConditionKind, status: ConditionStatus, reason: string)

  const IMPORTING := "ManagedClusterImporting"
  const WAIT_FOR_IMPORTING := "ManagedClusterWaitForImporting"
  const GRACE_RECHECK := 60
  const REIMPORT_RECHECK := 30

  /** What looking for the ManagedCluster resource gives. */
  datatype Lookup =
    | NotFound
    | NotInManifest
    | Unreadable
    | Found(conditions: seq<ClusterCondition>)

  function FindCluster(cs: seq<ClusterCondition>, kind: ClusterConditionKind): Option<ClusterCondition> {
    if cs == [] then None
    else if cs[0].kind == kind then Some(cs[0])
    else FindCluster(cs[1..], kind)
  }

  predicate Holds(cs: seq<ClusterCondition>, kind: ClusterConditionKind) {
    FindCluster(cs, kind).Some? && FindCluster(cs, kind).value.status == ConditionTrue
  }

  predicate Healthy(cs: seq<ClusterCondition>) {
    Holds(cs, Available) && Holds(cs, ImportSucceeded) && Holds(cs, Joined)
  }

  predicate Importing(cs: seq<ClusterCondition>) {
    var c := FindCluster(cs, ImportSucceeded);
    c.Some? && c.value.status == ConditionFalse && (c.value.reason == IMPORTING || c.value.reason == WAIT_FOR_IMPORTING)
  }

  /** The fields read: status.reinstall (observed generation, conditions) and status.conditions. */
  datatype State = State(observed: string, reinstall: seq<Condition>, instance: seq<Condition>)

  /** What one pass meets; `applies` and `saved` say whether the manifests and the patch get through. */
  datatype Inputs = Inputs(allowed: bool, now: int, lookup: Lookup, applies: bool, saved: bool)

  /** The answer of one pass; `tried` says that the manifests were sent to the spoke cluster. */
  datatype Decision = Decision(
    needed: bool,
    requeueAfter: int,
    failed: bool,
    tried: bool,
    write: Option<Condition>)

  function Reimported(status: ConditionStatus, reason: Reason, message: string, now: int): Option<Condition> {
    Some(Condition(ClusterReimported, status, reason, message, now))
  }

  predicate Initiated(st: State) {
    var c := Find(st.reinstall, ClusterReimported);
    c.Some? && c.value.status == ConditionFalse && c.value.reason == ReimportInitiated
  }

  predicate AlreadyReimported(st: State) {
    IsTrue(st.reinstall, ClusterReimported)
  }

  predicate Applicable(st: State, inp: Inputs) {
    && st.observed != "" && inp.allowed
    && IsTrue(st.reinstall, RequestProcessed)
    && !AlreadyReimported(st)
    && IsTrue(st.instance, Provisioned)
  }

  /** The message of the wait tells the seconds left, so it changes from pass to pass. */
  function Remaining(instance: seq<Condition>, now: int): string {
    match Find(instance, Provisioned)
    case None => ""
    case Some(c) => FormatInt(GRACE_PERIOD - (now - c.since))
  }

  function Decide(st: State, inp: Inputs): Decision {
    if !Applicable(st, inp) then Decision(false, 0, false, false, None)
    else
      match inp.lookup
      case NotFound =>
        Decision(true, 0, false, false, Reimported(ConditionFalse, InProgress, "waiting for creation", inp.now))
      case NotInManifest =>
        Decision(true, 0, false, false, Reimported(ConditionFalse, InProgress, "waiting for rendering", inp.now))
      case Unreadable =>
        Decision(false, 0, true, false, Reimported(ConditionFalse, Failed, "unreadable", inp.now))
      case Found(cs) =>
        if Healthy(cs) then
          Decision(false, 0, false, false, Reimported(ConditionTrue, Completed, "healthy", inp.now))
        else if WithinGrace(st.instance, inp.now) then
          Decision(true, GRACE_RECHECK, false, false,
                   Reimported(ConditionFalse, InProgress, Remaining(st.instance, inp.now), inp.now))
        else if Importing(cs) then
          Decision(true, REIMPORT_RECHECK, false, false,
                   Reimported(ConditionFalse, InProgress, "import in progress", inp.now))
        else if Initiated(st) then Decision(true, REIMPORT_RECHECK, false, false, None)
        else if inp.applies then
          Decision(true, REIMPORT_RECHECK, false, true,
                   Reimported(ConditionFalse, ReimportInitiated, "manifests applied", inp.now))
        else Decision(false, 0, true, true, Reimported(ConditionFalse, Failed, "reimport failed", inp.now))
  }

  /** The condition has to be patched; the patch can be lost. */
  predicate Patches(st: State, inp: Inputs) {
    var write := Decide(st, inp).write;
    write.Some? && MetaSet(st.reinstall, write.value) != st.reinstall
  }

  /** An error of the pass: its own, or that of the patch. */
  predicate Fails(st: State, inp: Inputs) {
    Decide(st, inp).failed || (Patches(st, inp) && !inp.saved)
  }

  function AfterPass(st: State, inp: Inputs): State {
    var d := Decide(st, inp);
    if d.write.Some? && inp.saved then st.(reinstall := MetaSet(st.reinstall, d.write.value)) else st
  }

  // ----- The operator's code -----------------------------------------------------------------

  class Handler {
    var observed: string
    const reinstall: ConditionList
    const instance: ConditionList

    constructor (observed: string, reinstall: ConditionList, instance: ConditionList)
      ensures this.observed == observed && this.reinstall == reinstall && this.instance == instance
    {
      this.observed := observed;
      this.reinstall := reinstall;
      this.instance := instance;
    }

    function Fields(): State
      reads this, reinstall, instance
    {
      State(observed, reinstall.items, instance.items)
    }

    method EnsureClusterIsReimported(inp: Inputs)
      returns (requeueAfter: int, needed: bool, failed: bool, tried: bool)
      requires reinstall != instance
      modifies reinstall
      ensures var d := Decide(old(Fields()), inp);
              && requeueAfter == d.requeueAfter && needed == d.needed
              && failed == Fails(old(Fields()), inp) && tried == d.tried
      ensures Fields() == AfterPass(old(Fields()), inp)
    {
      requeueAfter, needed, failed, tried := 0, false, false, false;
      if observed == "" || !inp.allowed {
        return;
      }
      var processed := reinstall.FindStatusCondition(RequestProcessed);
      if processed < 0 || reinstall.items[processed].status != ConditionTrue {
        return;
      }
      var existing := reinstall.FindStatusCondition(ClusterReimported);
      if existing >= 0 && reinstall.items[existing].status == ConditionTrue {
        return;
      }
      var provisioned := instance.FindStatusCondition(Provisioned);
      if provisioned < 0 || instance.items[provisioned].status != ConditionTrue {
        return;
      }
      var inGrace := GRACE_PERIOD - (inp.now - instance.items[provisioned].since) > 0;
      var status, reason, message := ConditionFalse, InProgress, "";
      match inp.lookup {
        case NotFound =>
          needed, message := true, "waiting for creation";
        case NotInManifest =>
          needed, message := true, "waiting for rendering";
        case Unreadable =>
          failed, reason, message := true, Failed, "unreadable";
        case Found(cs) =>
          if Healthy(cs) {
            status, reason, message := ConditionTrue, Completed, "healthy";
          } else if inGrace {
            needed, requeueAfter := true, GRACE_RECHECK;
            message := Remaining(instance.items, inp.now);
          } else if Importing(cs) {
            needed, requeueAfter, message := true, REIMPORT_RECHECK, "import in progress";
          } else if existing >= 0 && reinstall.items[existing].reason == ReimportInitiated
                    && reinstall.items[existing].status == ConditionFalse {
            needed, requeueAfter := true, REIMPORT_RECHECK;
            return;
          } else {
            tried := true;
            if inp.applies {
              needed, requeueAfter := true, REIMPORT_RECHECK;
              reason, message := ReimportInitiated, "manifests applied";
            } else {
              failed, reason, message := true, Failed, "reimport failed";
            }
          }
      }
      var lost := PatchCondition(Condition(ClusterReimported, status, reason, message, inp.now), inp.saved);
      failed := failed || lost;
    }

    /** The deferred block: the condition is patched if it changed. */
    method PatchCondition(c: Condition, saved: bool) returns (lost: bool)
      modifies reinstall
      ensures var stored := old(reinstall.items);
              && lost == (MetaSet(stored, c) != stored && !saved)
              && reinstall.items == (if saved then MetaSet(stored, c) else stored)
    {
      var stored := reinstall.items;
      var changed := reinstall.MetaSetStatusCondition(c);
      lost := changed && !saved;
      if lost {
        reinstall.items := stored;
      }
    }
  }

  // ----- Runs --------------------------------------------------------------------------------

  /**
   Everything that happens to the fields: a pass, a new reinstall request (its conditions are rebuilt),
   another writer of the reinstall conditions, or the ClusterDeployment reconciler.
   */
  datatype Step =
    | Pass(inp: Inputs)
    | Restarted(conditions: seq<Condition>)
    | Processing(c: Condition, observed: string)
    | Deployed(cd: ClusterDeployment, now: int)

  function Next(st: State, step: Step): State {
    match step
    case Pass(inp) => AfterPass(st, inp)
    case Restarted(cs) => st.(reinstall := cs)
    case Processing(c, observed) =>
      if c.kind == ClusterReimported then st else State(observed, MetaSet(st.reinstall, c), st.instance)
    case Deployed(cd, now) => st.(instance := Write(st.instance, Deployment(cd), now))
  }

  /** The states before each step, and the last one. */
  function States(st: State, steps: seq<Step>): (r: seq<State>)
    ensures |r| == |steps| + 1
    decreases |steps|
  {
    if steps == [] then [st] else [st] + States(Next(st, steps[0]), steps[1..])
  }

  predicate Tries(st: State, step: Step) {
    step.Pass? && Decide(st, step.inp).tried
  }

  /** Manifests applied, and the fact recorded. */
  predicate Records(st: State, step: Step) {
    Tries(st, step) && step.inp.applies && step.inp.saved
  }

  /**
   The events that let the manifests be applied again: a new request, or a pass that stores another reason
   over the one of the attempt.
   */
  predicate Reopens(st: State, step: Step) {
    || step.Restarted?
    || (&& step.Pass? && step.inp.saved
        && var write := Decide(st, step.inp).write;
           write.Some? && write.value.status == ConditionFalse && write.value.reason != ReimportInitiated)
  }

  /** Over a recorded attempt, that is a pass that finds the cluster gone, unreadable, importing, or back in its grace period. */
  lemma ReopensIff(st: State, step: Step)
    requires step.Pass? && Initiated(st)
    ensures Reopens(st, step) <==>
            && step.inp.saved && Applicable(st, step.inp)
            && (match step.inp.lookup
                case Found(cs) => !Healthy(cs) && (WithinGrace(st.instance, step.inp.now) || Importing(cs))
                case _ => true)
    ensures Reopens(st, step) ==> !Initiated(Next(st, step))
  {
    var write := Decide(st, step.inp).write;
    if write.Some? {
      FindMetaSet(st.reinstall, write.value, ClusterReimported);
    }
  }

  /** The manifests will not be applied: done, or waiting for a recorded attempt. */
  predicate Settled(st: State) {
    AlreadyReimported(st) || Initiated(st)
  }

  /**
   The manifests are applied only to an unhealthy cluster that is not being imported, after the grace
   period, in an allowed and finished reinstall, and never while an earlier attempt is on record.
   */
  lemma TriedMeans(st: State, inp: Inputs)
    ensures Decide(st, inp).tried <==>
            && st.observed != "" && inp.allowed
            && IsTrue(st.reinstall, RequestProcessed) && IsTrue(st.instance, Provisioned)
            && !Settled(st)
            && !WithinGrace(st.instance, inp.now)
            && inp.lookup.Found? && !Healthy(inp.lookup.conditions) && !Importing(inp.lookup.conditions)
  {
  }

  lemma SettledPass(st: State, inp: Inputs)
    requires Settled(st) && !Reopens(st, Pass(inp))
    ensures Settled(AfterPass(st, inp))
  {
    var write := Decide(st, inp).write;
    SettledWrites(st, inp);
    if write.Some? && inp.saved {
      FindMetaSet(st.reinstall, write.value, ClusterReimported);
    }
  }

  lemma SettledWrites(st: State, inp: Inputs)
    requires Settled(st)
    ensures var write := Decide(st, inp).write;
            write.Some? ==> && write.value.kind == ClusterReimported
                            && (write.value.status == ConditionTrue || write.value.status == ConditionFalse)
                            && (write.value.status == ConditionFalse ==> write.value.reason != ReimportInitiated)
  {
  }

  lemma SettledStep(st: State, step: Step)
    requires Settled(st) && !Reopens(st, step)
    ensures !Tries(st, step) && Settled(Next(st, step))
  {
    match step
    case Pass(inp) =>
      TriedMeans(st, inp);
      SettledPass(st, inp);
    case Processing(c, _) =>
      FindMetaSet(st.reinstall, c, ClusterReimported);
    case _ =>
  }

  lemma {:induction false} NextState(st: State, steps: seq<Step>, i: nat)
    requires i < |steps|
    ensures States(st, steps)[i + 1] == Next(States(st, steps)[i], steps[i])
    decreases i
  {
    var next := Next(st, steps[0]);
    if i == 0 {
      assert States(next, steps[1..])[0] == next;
    } else {
      NextState(next, steps[1..], i - 1);
    }
  }

  lemma {:induction false} SettledRun(st: State, steps: seq<Step>, i: nat, n: nat)
    requires i <= n < |steps| && Settled(States(st, steps)[i])
    requires forall k | i <= k < n :: !Reopens(States(st, steps)[k], steps[k])
    ensures !Tries(States(st, steps)[n], steps[n])
    decreases n - i
  {
    if i < n {
      SettledStep(States(st, steps)[i], steps[i]);
      NextState(st, steps, i);
      SettledRun(st, steps, i + 1, n);
    }
  }

  /**
   In any run, two applications of the import manifests, the first of them recorded, are separated by a
   new request or by a pass that overwrote the reason of the attempt.
   */
  lemma AppliedOncePerOpening(st: State, steps: seq<Step>, i: nat, j: nat)
    requires i < j < |steps|
    requires Records(States(st, steps)[i], steps[i]) && Tries(States(st, steps)[j], steps[j])
    ensures exists k | i < k < j :: Reopens(States(st, steps)[k], steps[k])
  {
    RecordSettles(States(st, steps)[i], steps[i]);
    NextState(st, steps, i);
    if forall k | i < k < j :: !Reopens(States(st, steps)[k], steps[k]) {
      SettledRun(st, steps, i + 1, j);
    }
  }

  lemma RecordWrites(st: State, inp: Inputs)
    requires Decide(st, inp).tried && inp.applies
    ensures Decide(st, inp).write == Reimported(ConditionFalse, ReimportInitiated, "manifests applied", inp.now)
  {
  }

  lemma RecordSettles(st: State, step: Step)
    requires Records(st, step)
    ensures Settled(Next(st, step))
  {
    RecordWrites(st, step.inp);
    var c := Reimported(ConditionFalse, ReimportInitiated, "manifests applied", step.inp.now).value;
    FindMetaSet(st.reinstall, c, ClusterReimported);
    assert Next(st, step).reinstall == MetaSet(st.reinstall, c);
  }

  /** Once reported, the reimport stays reported until a new request rebuilds the conditions. */
  lemma {:induction false} ReimportedIsSticky(st: State, steps: seq<Step>, n: nat)
    requires n <= |steps| && AlreadyReimported(st)
    requires forall k | 0 <= k < n :: !steps[k].Restarted?
    ensures AlreadyReimported(States(st, steps)[n])
    decreases n
  {
    if n > 0 {
      var next := Next(st, steps[0]);
      if steps[0].Processing? {
        FindMetaSet(st.reinstall, steps[0].c, ClusterReimported);
      }
      assert !steps[0].Restarted?;
      ReimportedIsSticky(next, steps[1..], n - 1);
    }
  }
}
