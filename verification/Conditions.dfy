/**
 Status conditions: a list with one entry per type, rewritten in place. `ConditionList` is the
 operator's code; `Set` is the list it leaves, and `Find` all that readers ever look at.
 */
module Conditions {
  import opened Kube

  datatype ConditionStatus = ConditionTrue | ConditionFalse | ConditionUnknown

  datatype ConditionType =
    | Provisioned
    | InstanceValidated
    | TemplatesRendered
    | TemplatesValidated
    | TemplatesApplied
    | RequestProcessed
    | RequestValidated
    | DataBackedUp
    | IdentityDetected
    | ManifestsDeleted
    | DataRestored
    | ClusterReimported

  datatype Reason =
    | Initialized
    | Completed
    | Failed
    | TimedOut
    | InProgress
    | UnknownReason
    | PreservationNotRequired
    | DataUnavailable
    | DataAvailable
    | ReimportInitiated

  /** `since` is the time of the last transition. */
  datatype Condition = Condition(
    kind: ConditionType,
    status: ConditionStatus,
    reason: Reason,
    message: string,
    since: int)

  function Find(cs: seq<Condition>, kind: ConditionType): (r: Option<Condition>)
    ensures r.Some? ==> r.value in cs && r.value.kind == kind
    ensures r.None? ==> forall c | c in cs :: c.kind != kind
  {
    if cs == [] then None
    else if cs[0].kind == kind then Some(cs[0])
    else Find(cs[1..], kind)
  }

  predicate OnePerType(cs: seq<Condition>) {
    forall i, j | 0 <= i < j < |cs| :: cs[i].kind != cs[j].kind
  }

  /** The entry that results from writing `c` over `old`: the transition time moves on a flip only. */
  function Written(was: Option<Condition>, c: Condition): Condition {
    if was.Some? && was.value.status == c.status then c.(since := was.value.since) else c
  }

  function Remove(cs: seq<Condition>, kind: ConditionType): seq<Condition> {
    if cs == [] then []
    else if cs[0].kind == kind then Remove(cs[1..], kind)
    else [cs[0]] + Remove(cs[1..], kind)
  }

  /** meta.SetStatusCondition: overwrite the first entry of the type, or append. */
  function MetaSet(cs: seq<Condition>, c: Condition): seq<Condition> {
    if cs == [] then [c]
    else if cs[0].kind == c.kind then [Written(Some(cs[0]), c)] + cs[1..]
    else [cs[0]] + MetaSet(cs[1..], c)
  }

  function Flips(cs: seq<Condition>, c: Condition): bool {
    var was := Find(cs, c.kind);
    was.Some? && was.value.status != c.status
  }

  /** The wrapper: an entry that flips and is not last is first taken out, so it ends up last. */
  function Set(cs: seq<Condition>, c: Condition): seq<Condition> {
    if Flips(cs, c) && cs[|cs| - 1].kind != c.kind then MetaSet(Remove(cs, c.kind), c) else MetaSet(cs, c)
  }

  // ----- Laws --------------------------------------------------------------------------------

  lemma {:induction false} FindRemoved(cs: seq<Condition>, kind: ConditionType, other: ConditionType)
    ensures Find(Remove(cs, kind), other) == if other == kind then None else Find(cs, other)
  {
    if cs != [] {
      FindRemoved(cs[1..], kind, other);
    }
  }

  lemma {:induction false} FindMetaSet(cs: seq<Condition>, c: Condition, other: ConditionType)
    ensures Find(MetaSet(cs, c), other) ==
            if other == c.kind then Some(Written(Find(cs, c.kind), c)) else Find(cs, other)
  {
    if cs != [] {
      FindMetaSet(cs[1..], c, other);
    }
  }

  /** A write changes what is found for its own type only, and moves the transition time only on a flip. */
  lemma FindSet(cs: seq<Condition>, c: Condition, other: ConditionType)
    ensures Find(Set(cs, c), other) ==
            if other == c.kind then Some(Written(Find(cs, c.kind), c)) else Find(cs, other)
  {
    FindMetaSet(cs, c, other);
    FindMetaSet(Remove(cs, c.kind), c, other);
    FindRemoved(cs, c.kind, other);
    FindRemoved(cs, c.kind, c.kind);
  }

  lemma {:induction false} RemoveKeepsOne(cs: seq<Condition>, kind: ConditionType)
    requires OnePerType(cs)
    ensures OnePerType(Remove(cs, kind))
    ensures forall c :: c in Remove(cs, kind) <==> c in cs && c.kind != kind
  {
    if cs != [] {
      RemoveKeepsOne(cs[1..], kind);
      assert forall c :: c in cs <==> c == cs[0] || c in cs[1..];
    }
  }

  lemma {:induction false} MetaSetKeepsOne(cs: seq<Condition>, c: Condition)
    requires OnePerType(cs)
    ensures OnePerType(MetaSet(cs, c))
    ensures forall d | d in MetaSet(cs, c) :: d.kind == c.kind || d in cs
  {
    if cs != [] && cs[0].kind != c.kind {
      MetaSetKeepsOne(cs[1..], c);
      var r := MetaSet(cs[1..], c);
      forall i | 0 <= i < |r|
        ensures r[i].kind != cs[0].kind
      {
        assert r[i] in r;
      }
    }
  }

  lemma {:induction false} RemoveMetaSet(cs: seq<Condition>, c: Condition)
    ensures Remove(MetaSet(cs, c), c.kind) == Remove(cs, c.kind)
  {
    if cs == [] {
      assert Remove([c], c.kind) == [];
    } else {
      RemoveMetaSet(cs[1..], c);
      var r := MetaSet(cs, c);
      assert r[1..] == if cs[0].kind == c.kind then cs[1..] else MetaSet(cs[1..], c);
    }
  }

  lemma {:induction false} RemoveTwice(cs: seq<Condition>, kind: ConditionType)
    ensures Remove(Remove(cs, kind), kind) == Remove(cs, kind)
  {
    if cs != [] {
      RemoveTwice(cs[1..], kind);
      assert cs[0].kind != kind ==> Remove(cs, kind)[1..] == Remove(cs[1..], kind);
    }
  }

  /** One entry per type survives a write, and the other entries keep their relative order. */
  lemma SetKeepsOthers(cs: seq<Condition>, c: Condition)
    requires OnePerType(cs)
    ensures OnePerType(Set(cs, c))
    ensures Remove(Set(cs, c), c.kind) == Remove(cs, c.kind)
  {
    RemoveKeepsOne(cs, c.kind);
    MetaSetKeepsOne(cs, c);
    MetaSetKeepsOne(Remove(cs, c.kind), c);
    RemoveMetaSet(cs, c);
    RemoveMetaSet(Remove(cs, c.kind), c);
    RemoveTwice(cs, c.kind);
  }

  lemma {:induction false} MetaSetAppends(cs: seq<Condition>, c: Condition)
    requires forall d | d in cs :: d.kind != c.kind
    ensures MetaSet(cs, c) == cs + [c]
  {
    if cs != [] {
      assert cs[0] in cs && cs == [cs[0]] + cs[1..];
      MetaSetAppends(cs[1..], c);
    }
  }

  /** A flip leaves its entry at the end of the list, where readers look for the latest news. */
  lemma FlippedIsLast(cs: seq<Condition>, c: Condition)
    requires OnePerType(cs) && Flips(cs, c)
    ensures Set(cs, c) == Remove(cs, c.kind) + [c]
  {
    RemoveKeepsOne(cs, c.kind);
    if cs[|cs| - 1].kind == c.kind {
      LastOfItsType(cs, c);
    } else {
      MetaSetAppends(Remove(cs, c.kind), c);
    }
  }

  lemma {:induction false} LastOfItsType(cs: seq<Condition>, c: Condition)
    requires OnePerType(cs) && Flips(cs, c) && cs[|cs| - 1].kind == c.kind
    ensures MetaSet(cs, c) == Remove(cs, c.kind) + [c]
  {
    if |cs| == 1 {
      assert Remove(cs, c.kind) == [];
    } else {
      assert cs[0].kind != cs[|cs| - 1].kind;
      LastOfItsType(cs[1..], c);
    }
  }

  /** A condition found says what `c` says; the transition time does not count. */
  predicate Says(found: Option<Condition>, c: Condition) {
    found.Some? && found.value.status == c.status && found.value.reason == c.reason && found.value.message == c.message
  }

  /** Writing what is already said changes nothing, and writing anything else does. */
  lemma {:induction false} MetaSetSame(cs: seq<Condition>, c: Condition)
    ensures MetaSet(cs, c) == cs <==> Says(Find(cs, c.kind), c)
  {
    if cs != [] && cs[0].kind != c.kind {
      MetaSetSame(cs[1..], c);
      assert MetaSet(cs, c)[1..] == MetaSet(cs[1..], c);
    } else if cs != [] {
      assert MetaSet(cs, c)[0] == Written(Some(cs[0]), c);
    }
  }

  lemma TwoWrites(cs: seq<Condition>, c: Condition, d: Condition)
    requires c.kind != d.kind
    ensures MetaSet(MetaSet(cs, c), d) == cs <==> Says(Find(cs, c.kind), c) && Says(Find(cs, d.kind), d)
  {
    MetaSetSame(cs, c);
    MetaSetSame(cs, d);
    FindMetaSet(cs, c, c.kind);
    FindMetaSet(MetaSet(cs, c), d, c.kind);
    FindMetaSet(MetaSet(cs, c), d, d.kind);
  }

  // ----- The operator's code -----------------------------------------------------------------

  class ConditionList {
    var items: seq<Condition>

    constructor (items: seq<Condition>)
      ensures this.items == items
    {
      this.items := items;
    }

    method FindStatusCondition(kind: ConditionType) returns (index: int)
      ensures -1 <= index < |items|
      ensures Find(items, kind) == if index < 0 then None else Some(items[index])
      ensures forall i | 0 <= i < (if index < 0 then |items| else index) :: items[i].kind != kind
    {
      for i := 0 to |items|
        invariant forall j | 0 <= j < i :: items[j].kind != kind
        invariant Find(items, kind) == Find(items[i..], kind)
      {
        assert items[i..][1..] == items[i + 1..];
        if items[i].kind == kind {
          return i;
        }
      }
      return -1;
    }

    method RemoveStatusCondition(kind: ConditionType)
      modifies this
      ensures items == Remove(old(items), kind)
    {
      var kept: seq<Condition> := [];
      for i := 0 to |items|
        invariant kept + Remove(items[i..], kind) == Remove(items, kind)
        invariant items == old(items)
      {
        assert items[i..][1..] == items[i + 1..];
        if items[i].kind != kind {
          kept := kept + [items[i]];
        }
      }
      items := kept;
    }

    /** The library's setter; `changed` is its answer. */
    method MetaSetStatusCondition(c: Condition) returns (changed: bool)
      modifies this
      ensures items == MetaSet(old(items), c)
      ensures changed <==> items != old(items)
    {
      var index := FindStatusCondition(c.kind);
      if index < 0 {
        MetaSetAppends(items, c);
        items := items + [c];
        return true;
      }
      OverwriteAt(items, c, index);
      changed := false;
      var e := items[index];
      if e.status != c.status {
        e := e.(status := c.status, since := c.since);
        changed := true;
      }
      if e.reason != c.reason {
        e := e.(reason := c.reason);
        changed := true;
      }
      if e.message != c.message {
        e := e.(message := c.message);
        changed := true;
      }
      assert changed <==> e != items[index];
      items := items[index := e];
    }

    method SetStatusCondition(c: Condition)
      modifies this
      ensures items == Set(old(items), c)
    {
      var index := FindStatusCondition(c.kind);
      if index >= 0 && items[index].status != c.status && items[|items| - 1].kind != c.kind {
        RemoveStatusCondition(c.kind);
      }
      var _ := MetaSetStatusCondition(c);
    }
  }

  lemma {:induction false} OverwriteAt(cs: seq<Condition>, c: Condition, index: nat)
    requires index < |cs| && cs[index].kind == c.kind
    requires forall i | 0 <= i < index :: cs[i].kind != c.kind
    ensures MetaSet(cs, c) == cs[index := Written(Some(cs[index]), c)]
  {
    if index > 0 {
      OverwriteAt(cs[1..], c, index - 1);
      assert cs == [cs[0]] + cs[1..];
    }
  }

  // ----- The grace clock ---------------------------------------------------------------------

  const GRACE_PERIOD := 300

  predicate IsTrue(cs: seq<Condition>, kind: ConditionType) {
    Find(cs, kind).Some? && Find(cs, kind).value.status == ConditionTrue
  }

  /** isWithinGracePeriod; before provisioning completes the period counts as open. */
  predicate WithinGrace(cs: seq<Condition>, now: int) {
    !IsTrue(cs, Provisioned) || GRACE_PERIOD - (now - Find(cs, Provisioned).value.since) > 0
  }

  /** The part of a ClusterDeployment that decides the Provisioned condition. */
  datatype ClusterDeployment = ClusterDeployment(
    installed: bool,
    stopped: Option<ConditionStatus>,
    completed: Option<ConditionStatus>,
    failed: Option<ConditionStatus>)

  /** updateCIProvisionedStatus: the condition to write, if any. */
  function ProvisionedFor(cd: ClusterDeployment, now: int): Option<Condition> {
    if cd.installed then
      Some(Condition(Provisioned, ConditionTrue, Completed,
                     if cd.stopped == Some(ConditionTrue) && cd.completed == Some(ConditionTrue)
                     then "Provisioning completed" else "Cluster is installed", now))
    else if cd.stopped.None? || cd.completed.None? || cd.failed.None? then None
    else if cd.stopped.value == ConditionTrue && cd.failed.value == ConditionTrue then
      Some(Condition(Provisioned, ConditionFalse, Failed, "Provisioning failed", now))
    else if cd.stopped.value == ConditionFalse then
      Some(Condition(Provisioned, ConditionFalse, InProgress, "Provisioning cluster", now))
    else None
  }

  /** A writer of the list: the ClusterDeployment reconciler, or anyone else on another type. */
  datatype Writer = Deployment(cd: ClusterDeployment) | Elsewhere(c: Condition)

  function Write(cs: seq<Condition>, writer: Writer, now: int): seq<Condition> {
    match writer
    case Deployment(cd) =>
      var c := ProvisionedFor(cd, now);
      if c.Some? then Set(cs, c.value) else cs
    case Elsewhere(c) => if c.kind == Provisioned then cs else Set(cs, c)
  }

  /** The lists after 0, 1, 2, ... of the writes, each made at its own time. */
  function History(cs: seq<Condition>, writes: seq<(Writer, int)>): (r: seq<seq<Condition>>)
    ensures |r| == |writes| + 1
    decreases |writes|
  {
    if writes == [] then [cs] else [cs] + History(Write(cs, writes[0].0, writes[0].1), writes[1..])
  }

  lemma WriteKeepsSince(cs: seq<Condition>, writer: Writer, at: int)
    requires IsTrue(cs, Provisioned) && IsTrue(Write(cs, writer, at), Provisioned)
    ensures Find(Write(cs, writer, at), Provisioned).value.since == Find(cs, Provisioned).value.since
  {
    if writer.Deployment? && ProvisionedFor(writer.cd, at).Some? {
      FindSet(cs, ProvisionedFor(writer.cd, at).value, Provisioned);
    }
    if writer.Elsewhere? {
      FindSet(cs, writer.c, Provisioned);
    }
  }

  /**
   As long as every write leaves Provisioned True, none of them restarts the grace clock: a period that
   has run out by some time is still over after the writes, at any later time.
   */
  lemma {:induction false} GraceNeverReopens(cs: seq<Condition>, writes: seq<(Writer, int)>, n: nat, before: int, now: int)
    requires n <= |writes| && before <= now
    requires !WithinGrace(cs, before)
    requires forall i | 0 <= i <= n :: IsTrue(History(cs, writes)[i], Provisioned)
    ensures var first, last := Find(cs, Provisioned), Find(History(cs, writes)[n], Provisioned);
            first.Some? && last.Some? && last.value.since == first.value.since
    ensures !WithinGrace(History(cs, writes)[n], now)
    decreases n
  {
    if n > 0 {
      var (writer, at) := writes[0];
      var next := Write(cs, writer, at);
      var h := History(cs, writes);
      assert h[0] == cs && h[1] == next by {
        assert History(next, writes[1..])[0] == next;
      }
      WriteKeepsSince(cs, writer, at);
      forall i | 0 <= i <= n - 1
        ensures IsTrue(History(next, writes[1..])[i], Provisioned)
      {
        assert h[i + 1] == History(next, writes[1..])[i];
      }
      GraceNeverReopens(next, writes[1..], n - 1, before, now);
    }
  }

  /**
   What the ClusterDeployment makes of the Provisioned condition: True as soon as it is installed; False when
   the installation stopped and failed, or is still going on; and nothing while one of the three is unknown.
   No other condition changes.
   */
  lemma DeploymentDecides(cs: seq<Condition>, cd: ClusterDeployment, now: int)
    ensures var was, c := Find(cs, Provisioned), Find(Write(cs, Deployment(cd), now), Provisioned);
            var known := cd.stopped.Some? && cd.completed.Some? && cd.failed.Some?;
            if cd.installed then
              && c.Some? && c.value.status == ConditionTrue && c.value.reason == Completed
              && c.value.message == (if cd.stopped == Some(ConditionTrue) && cd.completed == Some(ConditionTrue)
                                     then "Provisioning completed" else "Cluster is installed")
            else if known && cd.stopped.value == ConditionTrue && cd.failed.value == ConditionTrue then
              c.Some? && c.value.status == ConditionFalse && c.value.reason == Failed
            else if known && cd.stopped.value == ConditionFalse then
              c.Some? && c.value.status == ConditionFalse && c.value.reason == InProgress
            else c == was
    ensures forall kind | kind != Provisioned :: Find(Write(cs, Deployment(cd), now), kind) == Find(cs, kind)
  {
    var c := ProvisionedFor(cd, now);
    if c.Some? {
      forall kind {
        FindSet(cs, c.value, kind);
      }
    }
  }

  /** Nobody else writes Provisioned; whatever else they write is found. */
  lemma ElsewhereWrites(cs: seq<Condition>, c: Condition, now: int)
    ensures var after := Write(cs, Elsewhere(c), now);
            && Find(after, Provisioned) == Find(cs, Provisioned)
            && (c.kind != Provisioned ==>
                  Find(after, c.kind).Some? && Find(after, c.kind).value.status == c.status && Find(after, c.kind).value.reason == c.reason)
  {
    FindSet(cs, c, Provisioned);
    FindSet(cs, c, c.kind);
  }
}
