/**
 The steps of a reconcile pass one by one: what each leaves stored, what it sends, and whether the pass goes
 on. Said of the patches that get through, of the errors met and of the entries of the list.
 */
module ControllerSteps {
  import opened Kube
  import opened Manifests
  import W = SyncWaves
  import opened Controller
  import D = Deletion
  import S = DeletionSafety

  /** One call per object, in order, and each says how it went. */
  lemma CallsAre(os: seq<W.RenderedObject>, fails: set<Identity>, dryRun: bool)
    ensures var calls := Calls(os, fails, dryRun);
            |calls| == |os| && forall i | 0 <= i < |os| ::
              calls[i].dryRun == dryRun && calls[i].id == os[i].id && (calls[i].ok <==> os[i].id !in fails)
  {
  }

  predicate Unsent(s: Cluster, s': Cluster) {
    && s'.calls == s.calls && s'.applied == s.applied && s'.observed == s.observed && s'.lastSpec == s.lastSpec
    && s'.live == s.live && s'.restore == s.restore && s'.handled == s.handled
  }

  /**
   Pruning: with nothing to prune the pass goes on. Otherwise the deletion's store is left, its list if the patch
   gets through; the pass goes on only after a complete deletion without errors, and pauses on a timeout.
   */
  lemma PruneLeaves(s: Cluster, inp: Inputs, plan: W.Plan)
    ensures var (s', goes) := PruneStep(s, inp, plan);
            var r := D.DeleteObjects(inp.deletion, s.world, s.tracked, plan);
            && Unsent(s, s')
            && (inp.prune == [] ==> goes && s' == s)
            && (inp.prune != [] ==>
                  && s'.world == r.world
                  && s'.tracked == (if inp.patches.prune then r.manifests else s.tracked)
                  && (goes <==> r.completed && r.errors == [] && (inp.patches.prune || r.manifests == s.tracked))
                  && (s'.paused <==> s.paused || (D.TimeoutError in r.errors && inp.patches.pause)))
  {
  }

  /** Suppressing: afterwards each object is tracked as suppressed, or the patch was lost and nothing changed. */
  lemma SuppressLeaves(s: Cluster, inp: Inputs)
    ensures var (s', goes) := SuppressStep(s, inp);
            && s' == s.(tracked := s'.tracked)
            && (goes <==> inp.patches.suppress || Suppress(s.tracked, inp.suppress, inp.now) == s.tracked)
            && (!goes ==> s' == s)
            && (goes ==> forall o | o in inp.suppress ::
                  EntryOf(s'.tracked, o.id).Some? && EntryOf(s'.tracked, o.id).value.status == Suppressed)
            && (goes ==> forall id | (forall o | o in inp.suppress :: o.id != id) :: EntryOf(s'.tracked, id) == EntryOf(s.tracked, id))
  {
    var s' := SuppressStep(s, inp).0;
    if SuppressStep(s, inp).1 {
      forall id {
        SuppressTracks(s.tracked, inp.suppress, inp.now, id);
      }
    }
  }

  lemma SuppressTracks(ms: seq<Manifest>, os: seq<W.RenderedObject>, now: int, id: Identity)
    ensures var was, entry := EntryOf(ms, id), EntryOf(Suppress(ms, os, now), id);
            if exists o | o in os :: o.id == id then entry.Some? && entry.value.status == Suppressed else entry == was
  {
    SuppressEnters(ms, os, now, id);
    FirstOfIff(os, id);
  }

  /** What the list says of an object that was sent. */
  predicate SentAs(ms: seq<Manifest>, id: Identity, fails: set<Identity>, status: Status) {
    EntryOf(ms, id).Some? && EntryOf(ms, id).value.status == if id in fails then RenderFailed else status
  }

  /** The dry-run of the whole list: recorded if the patch gets through, and gone on from if none failed. */
  lemma DryRunLeaves(s: Cluster, inp: Inputs)
    ensures var (s', goes) := DryRunStep(s, inp);
            && s' == s.(tracked := s'.tracked, calls := s.calls + Calls(inp.render, inp.dryRunFails, true))
            && (goes <==> inp.patches.validate && forall o | o in inp.render :: o.id !in inp.dryRunFails)
            && (!inp.patches.validate ==> s'.tracked == s.tracked)
            && (inp.patches.validate ==>
                  && (forall o | o in inp.render :: SentAs(s'.tracked, o.id, inp.dryRunFails, Validated))
                  && forall id | (forall o | o in inp.render :: o.id != id) :: EntryOf(s'.tracked, id) == EntryOf(s.tracked, id))
  {
    forall id {
      ExecuteEntry(s.tracked, inp.render, inp.dryRunFails, Validated, inp.now, id);
    }
  }

  /** The real requests: the same, and the version in memory counts as applied only if none failed. */
  lemma ApplyLeaves(s: Cluster, inp: Inputs)
    ensures var (s', goes) := ApplyStep(s, inp);
            var all := forall o | o in inp.render :: o.id !in inp.applyFails;
            && s' == s.(tracked := s'.tracked, applied := s'.applied, calls := s.calls + Calls(inp.render, inp.applyFails, false))
            && (goes <==> inp.patches.apply && all)
            && s'.applied == (if all then Some(s.live) else None)
            && (!inp.patches.apply ==> s'.tracked == s.tracked)
            && (inp.patches.apply ==>
                  && (forall o | o in inp.render :: SentAs(s'.tracked, o.id, inp.applyFails, Rendered))
                  && forall id | (forall o | o in inp.render :: o.id != id) :: EntryOf(s'.tracked, id) == EntryOf(s.tracked, id))
  {
    forall id {
      ExecuteEntry(s.tracked, inp.render, inp.applyFails, Rendered, inp.now, id);
    }
  }

  /** Velero has restored the instance under a name that was not handled yet. */
  predicate Restored(s: Cluster) {
    s.restore.Some? && (s.handled.None? || s.handled.value != s.restore.value)
  }

  /**
   An instance that Velero restored is not rendered: its generation counts as observed, and then the restore as
   handled. If only the second patch is lost, the next pass does both again.
   */
  lemma RestoredIsObserved(s: Cluster, inp: Inputs, plan: W.Plan)
    requires Restored(s) && !s.paused && inp.early.GoesOn?
    ensures var s' := Reconcile(s, inp, plan);
            && s'.calls == s.calls && s'.tracked == s.tracked && s'.applied == s.applied && s'.live == s.live
            && (s'.observed == if inp.patches.observe then s.live.generation else s.observed)
            && (Restored(s') <==> !(inp.patches.observe && inp.patches.handled))
  {
  }

  /** Otherwise the gate is passed only by a version that is not observed yet. */
  lemma ObservedIsNotRendered(s: Cluster, inp: Inputs, plan: W.Plan)
    requires !Restored(s) && s.observed == inp.gated.generation
    ensures Reconcile(s, inp, plan).calls == s.calls && Reconcile(s, inp, plan).observed == s.observed
  {
  }

  /** A paused instance is left alone; so is one for which an earlier step ends the pass. */
  lemma PausedIsLeftAlone(s: Cluster, inp: Inputs, plan: W.Plan)
    ensures s.paused ==> Reconcile(s, inp, plan) == s
    ensures !s.paused && (inp.early.Stops? || inp.reimportStops || inp.labelStops) ==> Reconcile(s, inp, plan).calls == s.calls
    ensures !s.paused && !Restored(s) && (inp.reinstall.Stops? || inp.validationStops || inp.renderStops) ==>
              Reconcile(s, inp, plan).calls == s.calls
  {
  }

  /** A detour leaves the store it says, or that of the deletion it makes, whose list is kept if its patch gets through. */
  lemma DetourLeaves(s: Cluster, d: Detour, plan: W.Plan)
    ensures var s' := Detoured(s, d, plan);
            && s'.(world := s.world, tracked := s.tracked, paused := s.paused) == s
            && (d.GoesOn? ==> s'.world == d.world && s'.tracked == s.tracked && s'.paused == s.paused)
            && (d.Stops? ==> s'.paused == d.pauses)
            && (d.Stops? && d.removal.None? ==> s'.world == d.world && s'.tracked == s.tracked)
            && (d.Stops? && d.removal.Some? ==>
                  var r := D.DeleteObjects(d.removal.value.setting, d.world, s.tracked, plan);
                  s'.world == r.world && s'.tracked == if d.removal.value.saved then r.manifests else s.tracked)
  {
  }

  /** The recording: nothing without the annotation, and the generation only of what was fetched again. */
  lemma ObserveLeaves(s: Cluster, inp: Inputs)
    requires s.observed != inp.seen.generation
    ensures var s' := ObserveStep(s, inp);
            && s'.calls == s.calls && s'.applied == s.applied && s'.tracked == s.tracked
            && (if inp.patches.annotate then s'.lastSpec == Some(inp.seen.spec) else s'.lastSpec == s.lastSpec && s'.observed == s.observed)
            && (s'.observed == if inp.patches.annotate && inp.refetched.Some? && inp.patches.observe
                               then inp.refetched.value.generation else s.observed)
  {
  }
}
