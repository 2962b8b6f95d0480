/**
 What becomes of an object that is to be deleted, and of its entry, said of labels, timestamps and numbers:
 which of the five outcomes an attempt has, and when a call times out.
 */
module DeletionOutcomes {
  import opened Kube
  import opened Manifests
  import opened SyncWaves
  import opened Deletion
  import opened DeletionSafety
  import opened DeletionProgress

  // ----- One attempt -------------------------------------------------------------------------

  predicate Has(w: World, owner: string, id: Identity) {
    id in w.objects && (if OwnedBy in w.objects[id].labels then w.objects[id].labels[OwnedBy] else "") == owner
  }

  /** The object was marked more than `timeout` ago. */
  predicate Late(w: World, owner: string, timeout: Option<int>, now: int, id: Identity) {
    && Has(w, owner, id) && w.objects[id].deletedAt.Some?
    && timeout.Some? && now - w.objects[id].deletedAt.value > timeout.value
  }

  predicate LateFor(cfg: Setting, w: World, id: Identity) {
    Late(w, cfg.owner, cfg.timeout, cfg.now, id)
  }

  /** Each of the five outcomes, and exactly when an attempt has it. */
  lemma OutcomeIff(cfg: Setting, w: World, id: Identity)
    ensures var outcome := DeleteObject(cfg, w, id).1;
            var readable, owned, marked := id !in cfg.faults.get, Has(w, cfg.owner, id), id in w.objects && w.objects[id].deletedAt.Some?;
            && (outcome == Gone <==> readable && id !in w.objects)
            && (outcome == Foreign <==> readable && id in w.objects && !owned)
            && (outcome == Failure(TimeoutError) <==> readable && LateFor(cfg, w, id))
            && (outcome == Failure(OtherError) <==> !readable || (owned && !marked && id in cfg.faults.delete))
            && (outcome == Waiting <==> readable && owned && (if marked then !LateFor(cfg, w, id) else id !in cfg.faults.delete))
  {
  }

  /**
   Only an owned object that is not marked is touched, and only if the call gets through: with finalizers it
   is marked with the current time, without them it is gone.
   */
  lemma AttemptLeaves(cfg: Setting, w: World, id: Identity, other: Identity)
    ensures var w' := DeleteObject(cfg, w, id).0;
            var asked := id !in cfg.faults.get && Has(w, cfg.owner, id) && w.objects[id].deletedAt.None?;
            && (SentDelete(id, cfg.owner) in w'.events[|w.events|..] <==> asked)
            && (asked && id !in cfg.faults.delete ==>
                  if w.objects[id].finalizers then
                    id in w'.objects && w'.objects[id] == w.objects[id].(deletedAt := Some(cfg.now))
                  else id !in w'.objects)
            && (!(asked && id !in cfg.faults.delete) || other != id ==>
                  (other in w.objects <==> other in w'.objects)
                  && (other in w.objects ==> w'.objects[other] == w.objects[other]))
  {
  }

  // ----- Timeouts ----------------------------------------------------------------------------

  predicate Sensible(cfg: Setting) {
    cfg.timeout.Some? ==> cfg.timeout.value >= 0
  }

  /** An object that is to be deleted, can be read and is late. */
  ghost predicate Blocks(cfg: Setting, w: World, ms: seq<Manifest>, id: Identity) {
    Tracked(ms, id) && id !in cfg.exclude && id !in cfg.faults.get && LateFor(cfg, w, id)
  }

  /** From `p` to `q` nothing timed out. */
  ghost predicate Prompt(p: Pass, q: Pass) {
    && SameEntries(p.manifests, q.manifests)
    && !q.aborted && TimeoutError !in q.errors
    && forall i | 0 <= i < |q.manifests| && q.manifests[i].status == DeletionTimedOut :: q.manifests[i] == p.manifests[i]
  }

  /** From `p` to `q` the call came to `id`, marked its entry and no other as timed out, and ended there. */
  ghost predicate EndedBy(cfg: Setting, p: Pass, q: Pass, id: Identity) {
    && SameEntries(p.manifests, q.manifests)
    && q.aborted && Blocks(cfg, p.world, p.manifests, id)
    && |q.errors| > 0 && q.errors[|q.errors| - 1] == TimeoutError && TimeoutError !in q.errors[..|q.errors| - 1]
    && q.manifests[IndexOf(p.manifests, id)].status == DeletionTimedOut
    && forall i | 0 <= i < |q.manifests| && q.manifests[i].status == DeletionTimedOut ::
         q.manifests[i] == p.manifests[i] || q.manifests[i].id == id
  }

  /** What is late stays late and tracked; nothing else becomes so. */
  ghost predicate SameLate(cfg: Setting, p: Pass, q: Pass) {
    forall id | Blocks(cfg, q.world, q.manifests, id) :: Blocks(cfg, p.world, p.manifests, id)
  }

  ghost predicate Open(p: Pass) {
    !p.aborted && TimeoutError !in p.errors
  }

  lemma StepTimeout(cfg: Setting, p: Pass, o: RenderedObject)
    requires Sensible(cfg) && Open(p)
    ensures var q := StepObject(cfg, p, o);
            if Blocks(cfg, p.world, p.manifests, o.id) then EndedBy(cfg, p, q, o.id) else Prompt(p, q)
  {
    OutcomeIff(cfg, p.world, o.id);
    StepGrows(cfg, p, o);
  }

  lemma AttemptKeepsLate(cfg: Setting, w: World, deleted: Identity, id: Identity)
    requires Sensible(cfg)
    ensures LateFor(cfg, DeleteObject(cfg, w, deleted).0, id) <==> LateFor(cfg, w, id)
  {
    AttemptLeaves(cfg, w, deleted, id);
  }

  lemma StepKeepsLate(cfg: Setting, p: Pass, o: RenderedObject, id: Identity)
    requires Sensible(cfg)
    ensures var q := StepObject(cfg, p, o);
            && (Blocks(cfg, q.world, q.manifests, id) <==> Blocks(cfg, p.world, p.manifests, id))
            && (Blocks(cfg, p.world, p.manifests, id) ==> (Tracked(q.removed, id) <==> Tracked(p.removed, id)))
  {
    StepGrows(cfg, p, o);
    SameEntriesSameIndex(p.manifests, StepObject(cfg, p, o).manifests, id);
    AttemptKeepsLate(cfg, p.world, o.id, id);
    OutcomeIff(cfg, p.world, o.id);
    if Takes(cfg, p, o) {
      TrackedAppend(p.removed, p.manifests[IndexOf(p.manifests, o.id)], id);
    }
  }

  /** In a group, the first late object ends the call. */
  lemma {:induction false} GroupTimeout(cfg: Setting, p: Pass, os: seq<RenderedObject>)
    requires Sensible(cfg) && Open(p)
    ensures var q := RunObjects(cfg, p, os);
            if exists o | o in os :: Blocks(cfg, p.world, p.manifests, o.id)
            then exists id :: Among(os, id) && EndedBy(cfg, p, q, id)
            else Prompt(p, q)
    decreases |os|
  {
    if os != [] {
      var mid := StepObject(cfg, p, os[0]);
      StepTimeout(cfg, p, os[0]);
      assert forall o :: o in os <==> o == os[0] || o in os[1..];
      if Blocks(cfg, p.world, p.manifests, os[0].id) {
        assert RunObjects(cfg, mid, os[1..]) == mid;
        assert Among(os, os[0].id);
      } else {
        forall id {
          StepKeepsLate(cfg, p, os[0], id);
        }
        GroupTimeout(cfg, mid, os[1..]);
        var q := RunObjects(cfg, mid, os[1..]);
        if id :| Among(os[1..], id) && EndedBy(cfg, mid, q, id) {
          EndedLater(cfg, p, mid, q, id);
        }
      }
    }
  }

  lemma EndedLater(cfg: Setting, p: Pass, mid: Pass, q: Pass, id: Identity)
    requires Prompt(p, mid) && EndedBy(cfg, mid, q, id) && Blocks(cfg, p.world, p.manifests, id)
    ensures EndedBy(cfg, p, q, id)
  {
    SameEntriesSameIndex(p.manifests, mid.manifests, id);
  }

  lemma {:induction false} GroupKeepsLate(cfg: Setting, p: Pass, os: seq<RenderedObject>, id: Identity)
    requires Sensible(cfg)
    ensures var q := RunObjects(cfg, p, os);
            && (Blocks(cfg, q.world, q.manifests, id) <==> Blocks(cfg, p.world, p.manifests, id))
            && (Blocks(cfg, p.world, p.manifests, id) ==> (Tracked(q.removed, id) <==> Tracked(p.removed, id)))
    decreases |os|
  {
    if os != [] && !p.aborted {
      StepKeepsLate(cfg, p, os[0], id);
      GroupKeepsLate(cfg, StepObject(cfg, p, os[0]), os[1..], id);
    }
  }

  /** A call times out at one late object, or at none. */
  lemma {:induction false} WavesTimeout(cfg: Setting, p: Pass, plan: Plan)
    requires Sensible(cfg) && Open(p)
    ensures var (q, completed) := RunWaves(cfg, p, plan);
            Prompt(p, q) || (!completed && exists id :: EndedBy(cfg, p, q, id))
    decreases |plan|
  {
    if plan != [] {
      var p' := p.(groupDone := true);
      var mid := RunObjects(cfg, p', plan[0].objects);
      GroupTimeout(cfg, p', plan[0].objects);
      if id :| EndedBy(cfg, p', mid, id) {
        assert EndedBy(cfg, p, mid, id);
      } else {
        assert Prompt(p, mid);
        if mid.errors == [] && mid.groupDone {
          WavesTimeout(cfg, mid, plan[1..]);
          var q := RunWaves(cfg, mid, plan[1..]).0;
          if id :| EndedBy(cfg, mid, q, id) {
            GroupKeepsLate(cfg, p', plan[0].objects, id);
            EndedLater(cfg, p, mid, q, id);
          }
        }
      }
    }
  }

  lemma {:induction false} WavesKeepLate(cfg: Setting, p: Pass, plan: Plan, id: Identity)
    requires Sensible(cfg) && Blocks(cfg, p.world, p.manifests, id)
    ensures Tracked(RunWaves(cfg, p, plan).0.removed, id) <==> Tracked(p.removed, id)
    decreases |plan|
  {
    if plan != [] {
      var p' := p.(groupDone := true);
      GroupKeepsLate(cfg, p', plan[0].objects, id);
      WavesKeepLate(cfg, RunObjects(cfg, p', plan[0].objects), plan[1..], id);
    }
  }

  /**
   A call that times out, whatever fails besides, has come to one late object: its entry is the only one
   newly marked as timed out, the timeout is the last of the errors, and the deletion is not complete.
   */
  lemma TimeoutNamesOne(cfg: Setting, w: World, ms: seq<Manifest>, plan: Plan) returns (id: Identity)
    requires Sensible(cfg) && TimeoutError in DeleteObjects(cfg, w, ms, plan).errors
    ensures Blocks(cfg, w, ms, id)
    ensures var r := DeleteObjects(cfg, w, ms, plan);
            && !r.completed
            && r.errors[|r.errors| - 1] == TimeoutError && TimeoutError !in r.errors[..|r.errors| - 1]
            && (exists m | m in r.manifests :: m.id == id && m.status == DeletionTimedOut)
            && (forall m | m in r.manifests && m.status == DeletionTimedOut :: m in ms || m.id == id)
  {
    var p := Start(w, ms);
    WavesTimeout(cfg, p, plan);
    var q := RunWaves(cfg, p, plan).0;
    id :| EndedBy(cfg, p, q, id);
    WavesKeepLate(cfg, p, plan, id);
    SameEntriesSameIndex(ms, q.manifests, id);
    var m := q.manifests[IndexOf(ms, id)];
    assert m in q.manifests && !Tracked(q.removed, id);
    assert m in Filter(q.manifests, q.removed);
    forall k | k in Filter(q.manifests, q.removed) && k.status == DeletionTimedOut
      ensures k in ms || k.id == id
    {
      var i :| 0 <= i < |q.manifests| && q.manifests[i] == k;
      assert ms[i] in ms;
    }
  }

  /** As long as no mark on an object to delete is older than the timeout, no call reports one. */
  lemma InTimeNeverTimesOut(cfg: Setting, w: World, ms: seq<Manifest>, plan: Plan)
    requires Sensible(cfg)
    requires forall m | m in ms && m.id !in cfg.exclude && Has(w, cfg.owner, m.id) && w.objects[m.id].deletedAt.Some? ::
               cfg.timeout.None? || cfg.now - w.objects[m.id].deletedAt.value <= cfg.timeout.value
    ensures var r := DeleteObjects(cfg, w, ms, plan);
            && TimeoutError !in r.errors
            && forall m | m in r.manifests && m.status == DeletionTimedOut :: m in ms
  {
    var p := Start(w, ms);
    WavesTimeout(cfg, p, plan);
    var q := RunWaves(cfg, p, plan).0;
    forall id
      ensures !Blocks(cfg, w, ms, id)
    {
      if Tracked(ms, id) {
        assert ms[IndexOf(ms, id)] in ms;
      }
    }
    assert Prompt(p, q);
    forall k | k in Filter(q.manifests, q.removed) && k.status == DeletionTimedOut
      ensures k in ms
    {
      var i :| 0 <= i < |q.manifests| && q.manifests[i] == k;
      assert ms[i] in ms;
    }
  }

  // ----- Which calls time out ----------------------------------------------------------------

  /** In a fault-free call the first group with anything to delete decides. */
  lemma {:induction false} WavesTimeOutIff(cfg: Setting, p: Pass, plan: Plan)
    requires Sensible(cfg) && FaultFree(cfg) && Open(p) && p.errors == []
    requires forall g | g in plan :: DistinctObjects(g.objects)
    ensures FirstLive(cfg, p, plan) <= |plan|
    ensures var q, first := RunWaves(cfg, p, plan).0, FirstLive(cfg, p, plan);
            TimeoutError in q.errors <==>
            first < |plan| && exists o | o in plan[first].objects :: Blocks(cfg, p.world, p.manifests, o.id)
    decreases |plan|
  {
    if plan != [] {
      assert plan[0] in plan && forall g | g in plan[1..] :: g in plan;
      if AnyLive(cfg, p, plan[0].objects) {
        LiveGroupDecides(cfg, p, plan);
      } else {
        var mid := RunObjects(cfg, p.(groupDone := true), plan[0].objects);
        QuietGroup(cfg, p, plan[0].objects);
        PassedOver(cfg, p, mid, plan[0].objects, plan[1..]);
        WavesTimeOutIff(cfg, mid, plan[1..]);
      }
    }
  }

  /** The first group with anything to delete is the last one of the call. */
  lemma LiveGroupDecides(cfg: Setting, p: Pass, plan: Plan)
    requires Sensible(cfg) && Open(p) && p.errors == [] && plan != [] && AnyLive(cfg, p, plan[0].objects)
    ensures TimeoutError in RunWaves(cfg, p, plan).0.errors <==>
            exists o | o in plan[0].objects :: Blocks(cfg, p.world, p.manifests, o.id)
  {
    var p' := p.(groupDone := true);
    assert AnyLive(cfg, p', plan[0].objects);
    LiveGroupStops(cfg, p', plan[0].objects);
    GroupTimeout(cfg, p', plan[0].objects);
  }

  lemma QuietGroup(cfg: Setting, p: Pass, os: seq<RenderedObject>)
    requires FaultFree(cfg) && Open(p) && p.errors == [] && DistinctObjects(os) && !AnyLive(cfg, p, os)
    ensures var q := RunObjects(cfg, p.(groupDone := true), os); Open(q) && q.errors == [] && q.groupDone
    ensures var q := RunObjects(cfg, p.(groupDone := true), os);
            forall id :: Blocks(cfg, q.world, q.manifests, id) <==> Blocks(cfg, p.world, p.manifests, id)
  {
    var p' := p.(groupDone := true);
    assert AnyLive(cfg, p', os) == AnyLive(cfg, p, os);
    assert Fresh(cfg, p', os);
    GroupFlags(cfg, p', os);
    PassedOver(cfg, p, RunObjects(cfg, p', os), os, []);
    forall id {
      SameEntriesSameIndex(p.manifests, RunObjects(cfg, p', os).manifests, id);
    }
  }

  predicate Stopped(p: Pass) {
    p.aborted || p.errors != [] || !p.groupDone
  }

  lemma {:induction false} StaysStopped(cfg: Setting, p: Pass, os: seq<RenderedObject>)
    requires Stopped(p)
    ensures Stopped(RunObjects(cfg, p, os))
    decreases |os|
  {
    if os != [] && !p.aborted {
      StepGrows(cfg, p, os[0]);
      StaysStopped(cfg, StepObject(cfg, p, os[0]), os[1..]);
    }
  }

  /** A group with a live object is not done, or an error of it is reported. */
  lemma {:induction false} LiveGroupStops(cfg: Setting, p: Pass, os: seq<RenderedObject>)
    requires AnyLive(cfg, p, os) && !p.aborted
    ensures Stopped(RunObjects(cfg, p, os))
    decreases |os|
  {
    var mid := StepObject(cfg, p, os[0]);
    assert forall o :: o in os <==> o == os[0] || o in os[1..];
    OutcomeIff(cfg, p.world, os[0].id);
    if Stopped(mid) {
      StaysStopped(cfg, mid, os[1..]);
    } else {
      StepGrows(cfg, p, os[0]);
      AttemptLeaves(cfg, p.world, os[0].id, os[0].id);
      var o :| o in os && Live(p.world, p.manifests, cfg, o.id);
      AttemptLeaves(cfg, p.world, os[0].id, o.id);
      SameEntriesSameIndex(p.manifests, mid.manifests, o.id);
      assert Live(mid.world, mid.manifests, cfg, o.id) && o != os[0];
      LiveGroupStops(cfg, mid, os[1..]);
    }
  }

  /** The call times out exactly when an object of the highest wave with anything to delete is late. */
  lemma CallTimesOutIff(cfg: Setting, w: World, ms: seq<Manifest>, plan: Plan)
    requires Sensible(cfg) && FaultFree(cfg) && DistinctIds(ms) && DeletionPlan(plan, ObjectsFor(ms))
    ensures TimeoutError in DeleteObjects(cfg, w, ms, plan).errors <==>
            exists m | m in ms :: && m.id !in cfg.exclude && LateFor(cfg, w, m.id)
                                  && forall v | v in LiveWaves(w, ms, cfg) :: v <= m.syncWave
  {
    var p := Start(w, ms);
    var first := FirstLive(cfg, p, plan);
    PlanDistinct(ms, plan);
    WavesTimeOutIff(cfg, p, plan);
    TopWave(w, ms, cfg, plan);
    if first < |plan| {
      assert plan[first] in plan;
      LateInGroup(cfg, w, ms, plan[first]);
    }
    forall m | m in ms && m.id !in cfg.exclude && LateFor(cfg, w, m.id)
      ensures m.syncWave in LiveWaves(w, ms, cfg)
    {
      LateIsLive(cfg, w, ms, m);
    }
  }

  lemma LateIsLive(cfg: Setting, w: World, ms: seq<Manifest>, m: Manifest)
    requires DistinctIds(ms) && m in ms && m.id !in cfg.exclude && LateFor(cfg, w, m.id)
    ensures Live(w, ms, cfg, m.id) && m.syncWave in LiveWaves(w, ms, cfg) && ms[IndexOf(ms, m.id)] == m
  {
    var i :| 0 <= i < |ms| && ms[i] == m;
    IndexIsUnique(ms, i);
  }

  lemma LateInGroup(cfg: Setting, w: World, ms: seq<Manifest>, g: Group)
    requires FaultFree(cfg) && DistinctIds(ms) && Holds(g, ObjectsFor(ms))
    ensures (exists o | o in g.objects :: Blocks(cfg, w, ms, o.id)) <==>
            exists m | m in ms :: m.syncWave == g.wave && m.id !in cfg.exclude && LateFor(cfg, w, m.id)
  {
    if o :| o in g.objects && Blocks(cfg, w, ms, o.id) {
      InGroup(ms, g, o.id);
      assert ms[IndexOf(ms, o.id)] in ms;
    }
    if m :| m in ms && m.syncWave == g.wave && m.id !in cfg.exclude && LateFor(cfg, w, m.id) {
      LateIsLive(cfg, w, ms, m);
      InGroup(ms, g, m.id);
    }
  }

  lemma PlanDistinct(ms: seq<Manifest>, plan: Plan)
    requires DistinctIds(ms) && DeletionPlan(plan, ObjectsFor(ms))
    ensures forall g | g in plan :: DistinctObjects(g.objects)
  {
    var os := ObjectsFor(ms);
    forall i, j | 0 <= i < j < |os|
      ensures os[i].id != os[j].id
    {
      assert os[i].id == ms[i].id && os[j].id == ms[j].id;
    }
    forall g | g in plan {
      GroupDistinct(g, os);
    }
  }

  // ----- What becomes of an entry ------------------------------------------------------------

  /** The entry is as it was, or it says what was found: a deletion waited for, late, or failed. */
  ghost predicate Told(cfg: Setting, w: World, was: Manifest, m: Manifest) {
    || m == was
    || (m.id == was.id && m.syncWave == was.syncWave && m.id !in cfg.exclude
        && (|| (m.status == DeletionInProgress && m.message == "" && Has(w, cfg.owner, m.id) && m.id !in cfg.faults.get)
            || (m.status == DeletionTimedOut && LateFor(cfg, w, m.id) && m.id !in cfg.faults.get)
            || (m.status == DeletionFailed && (m.id in cfg.faults.get || (Has(w, cfg.owner, m.id) && m.id in cfg.faults.delete)))))
  }

  ghost predicate AllTold(cfg: Setting, w: World, p: Pass, q: Pass) {
    |p.manifests| == |q.manifests| && forall i | 0 <= i < |p.manifests| :: Told(cfg, w, p.manifests[i], q.manifests[i])
  }

  /** Nothing comes to belong to the owner, and nothing more is late. */
  ghost predicate Earlier(cfg: Setting, w: World, v: World) {
    forall id :: (Has(v, cfg.owner, id) ==> Has(w, cfg.owner, id)) && (LateFor(cfg, v, id) ==> LateFor(cfg, w, id))
  }

  lemma StepTells(cfg: Setting, w: World, p: Pass, o: RenderedObject)
    requires Sensible(cfg) && Earlier(cfg, w, p.world)
    ensures var q := StepObject(cfg, p, o); AllTold(cfg, w, p, q) && Earlier(cfg, w, q.world)
  {
    OutcomeIff(cfg, p.world, o.id);
    forall id
      ensures Has(StepObject(cfg, p, o).world, cfg.owner, id) ==> Has(w, cfg.owner, id)
      ensures LateFor(cfg, StepObject(cfg, p, o).world, id) ==> LateFor(cfg, w, id)
    {
      AttemptLeaves(cfg, p.world, o.id, id);
      AttemptKeepsLate(cfg, p.world, o.id, id);
    }
  }

  lemma TellsOn(cfg: Setting, w: World, p: Pass, mid: Pass, q: Pass)
    requires AllTold(cfg, w, p, mid) && AllTold(cfg, w, mid, q)
    ensures AllTold(cfg, w, p, q)
  {
    forall i | 0 <= i < |p.manifests|
      ensures Told(cfg, w, p.manifests[i], q.manifests[i])
    {
      assert Told(cfg, w, p.manifests[i], mid.manifests[i]) && Told(cfg, w, mid.manifests[i], q.manifests[i]);
    }
  }

  lemma {:induction false} GroupTells(cfg: Setting, w: World, p: Pass, os: seq<RenderedObject>)
    requires Sensible(cfg) && Earlier(cfg, w, p.world)
    ensures var q := RunObjects(cfg, p, os); AllTold(cfg, w, p, q) && Earlier(cfg, w, q.world)
    decreases |os|
  {
    if os != [] && !p.aborted {
      var mid := StepObject(cfg, p, os[0]);
      StepTells(cfg, w, p, os[0]);
      GroupTells(cfg, w, mid, os[1..]);
      TellsOn(cfg, w, p, mid, RunObjects(cfg, mid, os[1..]));
    }
  }

  lemma {:induction false} WavesTell(cfg: Setting, w: World, p: Pass, plan: Plan)
    requires Sensible(cfg) && Earlier(cfg, w, p.world)
    ensures AllTold(cfg, w, p, RunWaves(cfg, p, plan).0)
    decreases |plan|
  {
    if plan != [] {
      var p' := p.(groupDone := true);
      var mid := RunObjects(cfg, p', plan[0].objects);
      GroupTells(cfg, w, p', plan[0].objects);
      WavesTell(cfg, w, mid, plan[1..]);
      TellsOn(cfg, w, p, mid, RunWaves(cfg, mid, plan[1..]).0);
    }
  }

  /** After a call, whatever failed in it, every entry that is left says what the call found. */
  lemma EntriesTell(cfg: Setting, w: World, ms: seq<Manifest>, plan: Plan)
    requires Sensible(cfg)
    ensures forall m | m in DeleteObjects(cfg, w, ms, plan).manifests :: exists was | was in ms :: Told(cfg, w, was, m)
  {
    WavesTell(cfg, w, Start(w, ms), plan);
    var q := RunWaves(cfg, Start(w, ms), plan).0;
    forall m | m in Filter(q.manifests, q.removed)
      ensures exists was | was in ms :: Told(cfg, w, was, m)
    {
      var i :| 0 <= i < |q.manifests| && q.manifests[i] == m;
      assert ms[i] in ms && Told(cfg, w, ms[i], m);
    }
  }

  /** Marked as waiting, unless it was already. */
  predicate Waited(was: Manifest, m: Manifest) {
    m.id == was.id && m.syncWave == was.syncWave && m.status == DeletionInProgress
  }

  lemma StepWaits(cfg: Setting, p: Pass, o: RenderedObject)
    requires FaultFree(cfg) && PromptAt(cfg, p, o)
    ensures var q := StepObject(cfg, p, o);
            && (forall i | 0 <= i < |p.manifests| && p.manifests[i].id != o.id :: q.manifests[i] == p.manifests[i])
            && (if Live(p.world, p.manifests, cfg, o.id)
                then var i := IndexOf(p.manifests, o.id); Waited(p.manifests[i], q.manifests[i])
                else q.manifests == p.manifests)
  {
  }

  lemma {:induction false} GroupWaits(cfg: Setting, p: Pass, os: seq<RenderedObject>, i: nat)
    requires FaultFree(cfg) && !p.aborted && Fresh(cfg, p, os) && DistinctIds(p.manifests) && i < |p.manifests|
    ensures SameEntries(p.manifests, RunObjects(cfg, p, os).manifests)
    ensures var q, id := RunObjects(cfg, p, os), p.manifests[i].id;
            if Live(p.world, p.manifests, cfg, id) && Among(os, id) then Waited(p.manifests[i], q.manifests[i])
            else q.manifests[i] == p.manifests[i]
    decreases |os|
  {
    if os != [] {
      var o, rest := os[0], os[1..];
      var mid := StepObject(cfg, p, o);
      assert o in os && forall r :: r in os <==> r == o || r in rest;
      StepWaits(cfg, p, o);
      StepGrows(cfg, p, o);
      StepFlags(cfg, p, o);
      FreshTail(cfg, p, os);
      IndexIsUnique(p.manifests, i);
      GroupWaits(cfg, mid, rest, i);
      if p.manifests[i].id != o.id {
        LiveAfterStep(cfg, p, o, p.manifests[i].id);
      }
    }
  }

  /** An undisturbed call marks the entries of the group at which it stops as waiting, and no others. */
  lemma {:induction false} WavesWait(cfg: Setting, p: Pass, plan: Plan, i: nat)
    requires FaultFree(cfg) && !p.aborted && p.errors == [] && DistinctIds(p.manifests) && i < |p.manifests|
    requires forall g | g in plan :: Fresh(cfg, p, g.objects)
    ensures FirstLive(cfg, p, plan) <= |plan| && |RunWaves(cfg, p, plan).0.manifests| == |p.manifests|
    ensures var q, first, id := RunWaves(cfg, p, plan).0, FirstLive(cfg, p, plan), p.manifests[i].id;
            if first < |plan| && Live(p.world, p.manifests, cfg, id) && Among(plan[first].objects, id)
            then Waited(p.manifests[i], q.manifests[i])
            else q.manifests[i] == p.manifests[i]
    decreases |plan|
  {
    if plan != [] {
      var g := plan[0];
      var p' := p.(groupDone := true);
      assert g in plan && Fresh(cfg, p', g.objects);
      GroupFlags(cfg, p', g.objects);
      GroupWaits(cfg, p', g.objects, i);
      assert AnyLive(cfg, p', g.objects) == AnyLive(cfg, p, g.objects);
      if !AnyLive(cfg, p, g.objects) {
        var q := RunObjects(cfg, p', g.objects);
        if Among(g.objects, p.manifests[i].id) {
          var o :| o in g.objects && o.id == p.manifests[i].id;
          assert !Live(p.world, p.manifests, cfg, o.id);
        }
        PassedOver(cfg, p, q, g.objects, plan[1..]);
        StillFresh(cfg, p, q, plan[1..]);
        SameEntriesSameIndex(p.manifests, q.manifests, p.manifests[i].id);
        WavesWait(cfg, q, plan[1..], i);
      }
    }
  }

  /** So after such a call exactly the entries of live objects on the highest live wave are marked as waiting. */
  lemma TopWaveWaits(w: World, ms: seq<Manifest>, cfg: Setting, plan: Plan, was: Manifest)
    requires Undisturbed(w, ms, cfg, plan) && was in ms
    ensures var r := DeleteObjects(cfg, w, ms, plan);
            if Live(w, ms, cfg, was.id) && (forall v | v in LiveWaves(w, ms, cfg) :: v <= was.syncWave)
            then exists m | m in r.manifests :: Waited(was, m)
            else was in r.manifests || forall m | m in r.manifests :: m.id != was.id
  {
    var p := Start(w, ms);
    var q := RunWaves(cfg, p, plan).0;
    var first := FirstLive(cfg, p, plan);
    var i :| 0 <= i < |ms| && ms[i] == was;
    GroupsFresh(w, ms, cfg, plan);
    WavesWait(cfg, p, plan, i);
    WavesEffect(cfg, p, plan, was.id);
    TopWave(w, ms, cfg, plan);
    IndexIsUnique(ms, i);
    assert q.manifests[i] in q.manifests;
    OnTop(w, ms, cfg, plan, was);
    if Tracked(q.removed, was.id) {
      forall m | m in Filter(q.manifests, q.removed)
        ensures m.id != was.id
      {
      }
    } else {
      assert q.manifests[i] in Filter(q.manifests, q.removed);
    }
  }

  lemma OnTop(w: World, ms: seq<Manifest>, cfg: Setting, plan: Plan, m: Manifest)
    requires Undisturbed(w, ms, cfg, plan) && m in ms
    ensures var first := FirstLive(cfg, Start(w, ms), plan);
            Live(w, ms, cfg, m.id) ==>
              && first < |plan|
              && (Among(plan[first].objects, m.id) <==> forall v | v in LiveWaves(w, ms, cfg) :: v <= m.syncWave)
  {
    TopWave(w, ms, cfg, plan);
    var first := FirstLive(cfg, Start(w, ms), plan);
    var i :| 0 <= i < |ms| && ms[i] == m;
    IndexIsUnique(ms, i);
    if Live(w, ms, cfg, m.id) {
      assert m.syncWave in LiveWaves(w, ms, cfg);
      assert plan[first] in plan;
      InGroup(ms, plan[first], m.id);
    }
  }

  /** What the call answers with: its own errors, and one more if the changed list could not be stored. */
  lemma ReportedIff(r: Result, before: seq<Manifest>, saved: bool)
    ensures Reported(r, before, saved) == [] <==> r.errors == [] && (r.manifests == before || saved)
    ensures TimeoutError in Reported(r, before, saved) <==> TimeoutError in r.errors
  {
  }
}
