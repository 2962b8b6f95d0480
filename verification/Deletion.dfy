/**
 Wave-ordered deletion of the tracked manifests, as a function of the store: what one call does to
 the objects, to the tracked list and to the record of calls, for any faults of the API server.
 `DeletionHandlers` has the operator's code, proved to compute exactly this.
 */
module Deletion {
  import opened Kube
  import opened Manifests
  import opened SyncWaves

  /** The API calls that fail during one pass. */
  datatype Faults = Faults(get: set<Identity>, delete: set<Identity>)

  /** What one call is given: the owner, what to spare, the time, the timeout and the faults. */
  datatype Setting = Setting(
    owner: string,
    exclude: seq<Identity>,
    now: int,
    timeout: Option<int>,
    faults: Faults)

  datatype ErrorKind = TimeoutError | OtherError

  datatype Outcome = Gone | Foreign | Failure(kind: ErrorKind) | Waiting

  predicate Expired(cfg: Setting, since: int) {
    cfg.timeout.Some? && cfg.now - since > cfg.timeout.value
  }

  function DeleteObject(cfg: Setting, w: World, id: Identity): (World, Outcome) {
    if id in cfg.faults.get then (w, Failure(OtherError))
    else if id !in w.objects then (Log(w, SawAbsent(id)), Gone)
    else
      var o := w.objects[id];
      if Owner(o) != cfg.owner then (Log(w, SawForeign(id)), Foreign)
      else if o.deletedAt.None? then
        var sent := Log(w, SentDelete(id, Owner(o)));
        if id in cfg.faults.delete then (sent, Failure(OtherError))
        else (sent.(objects := Deleted(w.objects, id, cfg.now)), Waiting)
      else if Expired(cfg, o.deletedAt.value) then (w, Failure(TimeoutError))
      else (w, Waiting)
  }

  /** The local variables of one call. */
  datatype Pass = Pass(
    world: World,
    manifests: seq<Manifest>,
    removed: seq<Manifest>,
    errors: seq<ErrorKind>,
    groupDone: bool,
    aborted: bool)

  function ErrorText(kind: ErrorKind): string {
    if kind.TimeoutError? then "timed out" else "failed"
  }

  function FailureStatus(kind: ErrorKind): Status {
    if kind.TimeoutError? then DeletionTimedOut else DeletionFailed
  }

  function StepObject(cfg: Setting, p: Pass, o: RenderedObject): Pass {
    if o.id in cfg.exclude then p
    else
      var i := IndexOf(p.manifests, o.id);
      if i < 0 then p
      else
        var (w, outcome) := DeleteObject(cfg, p.world, o.id);
        var m := p.manifests[i];
        match outcome
        case Gone => p.(world := w, removed := p.removed + [m])
        case Foreign => p.(world := w, removed := p.removed + [m])
        case Failure(kind) =>
          p.(world := w,
             errors := p.errors + [kind],
             manifests := p.manifests[i := UpdateStatus(m, FailureStatus(kind), ErrorText(kind), cfg.now)],
             aborted := kind.TimeoutError?)
        case Waiting =>
          var m' := if m.status == DeletionInProgress then m
                    else UpdateStatus(m, DeletionInProgress, "", cfg.now);
          p.(world := w, manifests := p.manifests[i := m'], groupDone := false)
  }

  function RunObjects(cfg: Setting, p: Pass, os: seq<RenderedObject>): Pass
    decreases |os|
  {
    if os == [] || p.aborted then p
    else RunObjects(cfg, StepObject(cfg, p, os[0]), os[1..])
  }

  /** The flag is the call's `deletionCompleted`. */
  function RunWaves(cfg: Setting, p: Pass, plan: Plan): (Pass, bool)
    decreases |plan|
  {
    if plan == [] then (p, true)
    else
      var q := RunObjects(cfg, p.(groupDone := true), plan[0].objects);
      if q.aborted || q.errors != [] || !q.groupDone then (q, false)
      else RunWaves(cfg, q, plan[1..])
  }

  function Start(w: World, ms: seq<Manifest>): Pass {
    Pass(w, ms, [], [], true, false)
  }

  function Filter(ms: seq<Manifest>, removed: seq<Manifest>): (r: seq<Manifest>)
    ensures forall m :: m in r <==> m in ms && !Tracked(removed, m.id)
  {
    if ms == [] then []
    else if Tracked(removed, ms[0].id) then Filter(ms[1..], removed)
    else [ms[0]] + Filter(ms[1..], removed)
  }

  /** What DeleteObjects leaves behind and answers. */
  datatype Result = Result(world: World, manifests: seq<Manifest>, completed: bool, errors: seq<ErrorKind>)

  /** The errors the call answers with: a lost patch of the changed list is one more. */
  function Reported(r: Result, before: seq<Manifest>, saved: bool): seq<ErrorKind> {
    r.errors + if r.manifests != before && !saved then [OtherError] else []
  }

  function DeleteObjects(cfg: Setting, w: World, ms: seq<Manifest>, plan: Plan): Result {
    var (p, completed) := RunWaves(cfg, Start(w, ms), plan);
    Result(p.world, Filter(p.manifests, p.removed), completed, p.errors)
  }
}
