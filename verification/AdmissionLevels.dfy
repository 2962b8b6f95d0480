/**
 Which updates are admitted in which state of an instance: before, during and after provisioning, with a
 new reinstall request and without.
 */
module AdmissionLevels {
  import opened Kube
  import opened Conditions
  import opened Reinstall
  import opened Admission
  import opened Nodes
  import J = Json
  import NI = NodeIdentity

  /** The update turns the hold on. */
  predicate TurnsHoldOn(before: Instance, after: Instance) {
    !before.spec.hold && after.spec.hold
  }

  lemma DeletingIsFree(before: Instance, after: Instance, valid: bool)
    requires after.deleting
    ensures UpdateAdmitted(before, after, valid)
  {
  }

  /** The hold is never turned on by an update. */
  lemma HoldIsNotTurnedOn(before: Instance, after: Instance, valid: bool)
    requires !after.deleting && TurnsHoldOn(before, after)
    ensures !UpdateAdmitted(before, after, valid)
  {
  }

  /** While the installation is held and not completed, every valid spec is admitted. */
  lemma HeldIsUnrestricted(before: Instance, after: Instance, valid: bool)
    requires !after.deleting && before.spec.hold && after.provisioned != Some(Completed)
    ensures UpdateAdmitted(before, after, valid) <==> valid
  {
  }

  /** An unheld installation that is not completed admits no change. */
  lemma UnfinishedIsFrozen(before: Instance, after: Instance, valid: bool)
    requires !after.deleting && !before.spec.hold && after.provisioned != Some(Completed)
    ensures UpdateAdmitted(before, after, valid) <==> after.spec == before.spec
  {
  }

  /** A reinstall for the requested generation has begun and not ended. */
  predicate Active(i: Instance) {
    && i.spec.reinstall.Some? && i.reinstall.Some?
    && i.reinstall.value.inProgress == i.spec.reinstall.value.generation && i.reinstall.value.end.None?
  }

  /** The spec asks for a generation that is not the observed one. */
  predicate Outstanding(i: Instance) {
    i.spec.reinstall.Some? && (i.reinstall.None? || i.reinstall.value.observed != i.spec.reinstall.value.generation)
  }

  /** A completed installation: frozen while the reinstall is active, and otherwise the named fields only. */
  lemma CompletedIff(before: Instance, after: Instance, valid: bool)
    requires !after.deleting && !TurnsHoldOn(before, after) && after.provisioned == Some(Completed)
    ensures UpdateAdmitted(before, after, valid) <==>
            if Active(after) then after.spec == before.spec
            else if Outstanding(after) then valid && Requestable(after) && PostProvisioning(before.spec, after.spec, true)
            else valid && PostProvisioning(before.spec, after.spec, false)
  {
    if Outstanding(after) {
      RequestableIff(after);
    }
  }

  predicate Alphanumeric(c: char) {
    'a' <= c <= 'z' || '0' <= c <= '9'
  }

  /** 1 to 153 lower-case letters, digits and hyphens, no hyphen at either end. */
  predicate WellFormed(g: string) {
    && 1 <= |g| <= 153 && Alphanumeric(g[0]) && Alphanumeric(g[|g| - 1])
    && forall c | c in g :: Alphanumeric(c) || c == '-'
  }

  /** A request may be made: nothing is active, and the generation is well formed and was never finished. */
  predicate Requestable(i: Instance) {
    && i.spec.reinstall.Some? && WellFormed(i.spec.reinstall.value.generation)
    && (i.reinstall.Some? ==>
          var s, g := i.reinstall.value, i.spec.reinstall.value.generation;
          && (s.inProgress == "" || s.end.Some?)
          && s.observed != g && forall r | r in s.history :: r.generation != g)
  }

  lemma RequestableIff(i: Instance)
    requires i.provisioned == Some(Completed) && i.spec.reinstall.Some?
    ensures RequestValid(i) <==> Requestable(i)
  {
    var g := i.spec.reinstall.value.generation;
    WellFormedIff(g);
    if i.reinstall.Some? {
      var h := i.reinstall.value.history;
      if r :| r in h && r.generation == g {
        var k :| 0 <= k < |h| && h[k] == r;
      }
    }
  }

  lemma WellFormedIff(g: string)
    ensures WellFormed(g) <==> ValidGeneration(g)
  {
    assert WellFormed(g) ==> forall i | 0 <= i < |g| :: g[i] in g;
  }

  // ----- New requests ------------------------------------------------------------------------

  lemma SameNodesAccepted(ns: seq<Node>, reinstall: bool)
    requires AllKeyed(ns)
    ensures !AnalysisOf(ns, ns, reinstall).unauthorized
  {
  }

  /**
   An update of a provisioned instance that changes nothing but the reinstall request is admitted if and
   only if the request may be made, or was already observed and is not changed at all.
   */
  lemma NewRequestAdmittedIff(before: Instance, after: Instance, valid: bool)
    requires Separate(before.spec) && Separate(after.spec)
    requires !after.deleting && after.provisioned == Some(Completed) && valid
    requires after.spec.reinstall.Some? && after.spec == before.spec.(reinstall := after.spec.reinstall)
    requires AllKeyed(before.spec.nodes) && !Active(after)
    ensures UpdateAdmitted(before, after, valid) <==>
            if Outstanding(after) then Requestable(after) else after.spec.reinstall == before.spec.reinstall
  {
    CompletedIff(before, after, valid);
    SameNodesAccepted(before.spec.nodes, true);
    SameNodesAccepted(before.spec.nodes, false);
    OnlyRequestDiffers(before.spec, after.spec);
    if PostProvisioning(before.spec, after.spec, false) {
      BaseOnlyKeepsRequest(before.spec, after.spec);
    }
  }

  lemma OnlyRequestDiffers(before: Spec, after: Spec)
    requires Separate(before) && Separate(after) && after == before.(reinstall := after.reinstall)
    ensures FieldsAllowed(before, after, true)
    ensures after.reinstall == before.reinstall ==> FieldsAllowed(before, after, false)
  {
    forall k | k in Others(before).Keys + Others(after).Keys && !J.SameAt(Others(before), Others(after), k)
      ensures k == REINSTALL
    {
    }
  }
}
