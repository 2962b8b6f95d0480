/**
 The reimport pass branch by branch: what it answers and what it leaves, said of the cluster's conditions, of
 the time since provisioning and of what is on record.
 */
module ReimportBranches {
  import opened Kube
  import opened Conditions
  import opened Reimport
  import Text

  /** The first condition of the kind has the status. */
  predicate ClusterHas(cs: seq<ClusterCondition>, kind: ClusterConditionKind, status: ConditionStatus) {
    exists i | 0 <= i < |cs| :: cs[i].kind == kind && cs[i].status == status && forall j | 0 <= j < i :: cs[j].kind != kind
  }

  /** And the reason is one of the two that say the import is going on. */
  predicate ClusterImporting(cs: seq<ClusterCondition>) {
    exists i | 0 <= i < |cs| ::
      && cs[i].kind == ImportSucceeded && cs[i].status == ConditionFalse
      && (cs[i].reason == "ManagedClusterImporting" || cs[i].reason == "ManagedClusterWaitForImporting")
      && forall j | 0 <= j < i :: cs[j].kind != ImportSucceeded
  }

  predicate AllTrue(cs: seq<ClusterCondition>) {
    ClusterHas(cs, Available, ConditionTrue) && ClusterHas(cs, ImportSucceeded, ConditionTrue) && ClusterHas(cs, Joined, ConditionTrue)
  }

  lemma {:induction false} FindClusterFirst(cs: seq<ClusterCondition>, kind: ClusterConditionKind)
    ensures var c := FindCluster(cs, kind);
            && (c.None? ==> forall i | 0 <= i < |cs| :: cs[i].kind != kind)
            && (c.Some? ==> exists i | 0 <= i < |cs| :: cs[i] == c.value && cs[i].kind == kind && forall j | 0 <= j < i :: cs[j].kind != kind)
  {
    if cs != [] && cs[0].kind != kind {
      FindClusterFirst(cs[1..], kind);
      var c := FindCluster(cs[1..], kind);
      if c.Some? {
        var i :| 0 <= i < |cs[1..]| && cs[1..][i] == c.value && forall j | 0 <= j < i :: cs[1..][j].kind != kind;
        assert cs[i + 1] == c.value;
        assert forall j | 0 < j < i + 1 :: cs[j] == cs[1..][j - 1];
      } else {
        assert forall j | 0 < j < |cs| :: cs[j] == cs[1..][j - 1];
      }
    }
  }

  lemma HoldsIff(cs: seq<ClusterCondition>, kind: ClusterConditionKind)
    ensures Holds(cs, kind) <==> ClusterHas(cs, kind, ConditionTrue)
  {
    FindClusterFirst(cs, kind);
  }

  lemma HealthIff(cs: seq<ClusterCondition>)
    ensures Healthy(cs) <==> AllTrue(cs)
    ensures Importing(cs) <==> ClusterImporting(cs)
  {
    HoldsIff(cs, Available);
    HoldsIff(cs, ImportSucceeded);
    HoldsIff(cs, Joined);
    FindClusterFirst(cs, ImportSucceeded);
  }

  predicate Stands(cs: seq<Condition>, kind: ConditionType, status: ConditionStatus, reason: Reason) {
    Find(cs, kind).Some? && Find(cs, kind).value.status == status && Find(cs, kind).value.reason == reason
  }

  predicate StandsTrue(cs: seq<Condition>, kind: ConditionType) {
    Find(cs, kind).Some? && Find(cs, kind).value.status == ConditionTrue
  }

  /** There is something to decide: a finished reinstall on a provisioned cluster that has not been reimported. */
  predicate Pending(st: State, allowed: bool) {
    && st.observed != "" && allowed && StandsTrue(st.reinstall, RequestProcessed)
    && !StandsTrue(st.reinstall, ClusterReimported) && StandsTrue(st.instance, Provisioned)
  }

  predicate Answers(d: Decision, needed: bool, requeueAfter: int, failed: bool, tried: bool) {
    d.needed == needed && d.requeueAfter == requeueAfter && d.failed == failed && d.tried == tried
  }

  /** A saved pass leaves the condition with this status and reason; one that is lost leaves all as it was. */
  predicate Leaves(st: State, inp: Inputs, status: ConditionStatus, reason: Reason) {
    && (inp.saved ==> Stands(AfterPass(st, inp).reinstall, ClusterReimported, status, reason))
    && (!inp.saved ==> AfterPass(st, inp) == st)
  }

  lemma WriteLeaves(st: State, inp: Inputs)
    requires Decide(st, inp).write.Some? && Decide(st, inp).write.value.kind == ClusterReimported
    ensures Leaves(st, inp, Decide(st, inp).write.value.status, Decide(st, inp).write.value.reason)
  {
    FindMetaSet(st.reinstall, Decide(st, inp).write.value, ClusterReimported);
  }

  lemma NothingPending(st: State, inp: Inputs)
    requires !Pending(st, inp.allowed)
    ensures Answers(Decide(st, inp), false, 0, false, false) && AfterPass(st, inp) == st
  {
  }

  lemma WithoutCluster(st: State, inp: Inputs)
    requires Pending(st, inp.allowed) && !inp.lookup.Found?
    ensures if inp.lookup.Unreadable? then Answers(Decide(st, inp), false, 0, true, false) && Leaves(st, inp, ConditionFalse, Failed)
            else Answers(Decide(st, inp), true, 0, false, false) && Leaves(st, inp, ConditionFalse, InProgress)
  {
    WriteLeaves(st, inp);
  }

  /** An unhealthy cluster: 5 minutes of grace, then the import under way, then the attempt on record, then a new one. */
  lemma WithCluster(st: State, inp: Inputs)
    requires Pending(st, inp.allowed) && inp.lookup.Found?
    ensures var cs, d := inp.lookup.conditions, Decide(st, inp);
            if AllTrue(cs) then Answers(d, false, 0, false, false) && Leaves(st, inp, ConditionTrue, Completed)
            else if inp.now - Find(st.instance, Provisioned).value.since < 300 then
              Answers(d, true, 60, false, false) && Leaves(st, inp, ConditionFalse, InProgress)
            else if ClusterImporting(cs) then Answers(d, true, 30, false, false) && Leaves(st, inp, ConditionFalse, InProgress)
            else if Stands(st.reinstall, ClusterReimported, ConditionFalse, ReimportInitiated) then
              Answers(d, true, 30, false, false) && AfterPass(st, inp) == st
            else if inp.applies then Answers(d, true, 30, false, true) && Leaves(st, inp, ConditionFalse, ReimportInitiated)
            else Answers(d, false, 0, true, true) && Leaves(st, inp, ConditionFalse, Failed)
  {
    HealthIff(inp.lookup.conditions);
    if Decide(st, inp).write.Some? {
      WriteLeaves(st, inp);
    }
  }

  /** The one way for a pass to report the reimport: a saved one that finds all three conditions of the cluster True. */
  lemma BecomesReimportedIff(st: State, inp: Inputs)
    requires !StandsTrue(st.reinstall, ClusterReimported)
    ensures StandsTrue(AfterPass(st, inp).reinstall, ClusterReimported) <==>
            Pending(st, inp.allowed) && inp.saved && inp.lookup.Found? && AllTrue(inp.lookup.conditions)
  {
    if !Pending(st, inp.allowed) {
      NothingPending(st, inp);
    } else if inp.lookup.Found? {
      WithCluster(st, inp);
    } else {
      WithoutCluster(st, inp);
    }
  }

  /** A pass fails for its own error, or because a change of the condition was lost. */
  lemma FailsIff(st: State, inp: Inputs)
    ensures Fails(st, inp) <==> Decide(st, inp).failed || (!inp.saved && AfterPass(st, inp.(saved := true)) != st)
  {
    SavingDecidesNothing(st, inp);
    SavedIs(st, inp.(saved := true));
  }

  lemma SavingDecidesNothing(st: State, inp: Inputs)
    ensures Decide(st, inp.(saved := true)) == Decide(st, inp)
  {
  }

  lemma SavedIs(st: State, inp: Inputs)
    requires inp.saved
    ensures var write := Decide(st, inp).write;
            AfterPass(st, inp) != st <==> write.Some? && MetaSet(st.reinstall, write.value) != st.reinstall
  {
  }

  /** During the grace period the message counts the seconds down. */
  lemma GraceCountsDown(st: State, inp: Inputs)
    requires Pending(st, inp.allowed) && inp.lookup.Found? && !AllTrue(inp.lookup.conditions) && inp.saved
    requires inp.now - Find(st.instance, Provisioned).value.since < 300
    ensures var c := Find(AfterPass(st, inp).reinstall, ClusterReimported);
            c.Some? && c.value.message == Text.FormatInt(Find(st.instance, Provisioned).value.since + 300 - inp.now)
  {
    HealthIff(inp.lookup.conditions);
    FindMetaSet(st.reinstall, Decide(st, inp).write.value, ClusterReimported);
  }
}
