/**
 Rendered objects and the map that groups them by sync wave. `sort.Slice` is not stable, so the
 order inside a wave is fixed only up to the order of the kinds: a `Plan` is any outcome it allows.
 */
module SyncWaves {
  import opened Kube
  import opened Text
  import opened Manifests

  datatype Action = Render | Suppress | Prune

  /** A rendered object; `wave` is its sync-wave annotation, if it has one. */
  datatype RenderedObject = RenderedObject(id: Identity, wave: Option<string>, action: Action)

  const DEFAULT_WAVE := "0"

  function SyncWave(o: RenderedObject): Option<Int64> {
    Atoi(if o.wave.Some? then o.wave.value else DEFAULT_WAVE)
  }

  predicate InWave(o: RenderedObject, wave: int) {
    SyncWave(o).Some? && SyncWave(o).value == wave
  }

  /** An object without the annotation is on wave 0. */
  lemma Unannotated(o: RenderedObject)
    requires o.wave.None?
    ensures SyncWave(o) == Some(0)
  {
    assert FormatInt(0) == "0";
    AtoiReadsFormatInt(0);
  }

  /** The reference read back from an object; nil when its wave is not an integer. */
  function Reference(o: RenderedObject, now: int): Option<Manifest> {
    match SyncWave(o)
    case None => None
    case Some(wave) => Some(Manifest(o.id, wave, Unset, "", now))
  }

  /** The object rebuilt from a tracked reference. */
  function ObjectFor(m: Manifest): RenderedObject {
    RenderedObject(m.id, Some(FormatInt(m.syncWave)), Render)
  }

  function ObjectsFor(ms: seq<Manifest>): seq<RenderedObject> {
    seq(|ms|, i requires 0 <= i < |ms| => ObjectFor(ms[i]))
  }

  /** Rebuilding an object from the list and reading its reference back changes neither identity nor wave. */
  lemma RebuildRoundTrip(m: Manifest, now: int)
    ensures Reference(ObjectFor(m), now) == Some(Manifest(m.id, m.syncWave, Unset, "", now))
    ensures InWave(ObjectFor(m), m.syncWave)
  {
    AtoiReadsFormatInt(m.syncWave);
  }

  predicate DistinctObjects(os: seq<RenderedObject>) {
    forall i, j | 0 <= i < j < |os| :: os[i].id != os[j].id
  }

  /** The objects of one wave, in the order they were added. */
  function OfWave(os: seq<RenderedObject>, wave: int): (r: seq<RenderedObject>)
    ensures forall o :: o in r <==> o in os && InWave(o, wave)
  {
    if os == [] then []
    else
      var rest := OfWave(os[1..], wave);
      if InWave(os[0], wave) then [os[0]] + rest else rest
  }

  lemma {:induction false} OfWaveCounts(os: seq<RenderedObject>, wave: int, o: RenderedObject)
    ensures multiset(OfWave(os, wave))[o] == if InWave(o, wave) then multiset(os)[o] else 0
  {
    if os != [] {
      OfWaveCounts(os[1..], wave, o);
      assert os == [os[0]] + os[1..];
    }
  }

  lemma {:induction false} OfWaveAppend(os: seq<RenderedObject>, o: RenderedObject, wave: int)
    ensures OfWave(os + [o], wave) == OfWave(os, wave) + if InWave(o, wave) then [o] else []
  {
    if os == [] {
      assert ([o])[1..] == [];
    } else {
      assert (os + [o])[1..] == os[1..] + [o];
      OfWaveAppend(os[1..], o, wave);
    }
  }

  predicate SortedByKind(os: seq<RenderedObject>) {
    forall i, j | 0 <= i < j < |os| :: AtMost(os[i].id.kind, os[j].id.kind)
  }

  // ----- Plans -------------------------------------------------------------------------------

  datatype Group = Group(wave: int, objects: seq<RenderedObject>)
  type Plan = seq<Group>

  /** `g` holds exactly the objects of its wave. */
  predicate Holds(g: Group, os: seq<RenderedObject>) {
    && multiset(g.objects) == multiset(OfWave(os, g.wave))
    && SortedByKind(g.objects)
  }

  predicate Covers(plan: Plan, os: seq<RenderedObject>) {
    && (forall g | g in plan :: Holds(g, os))
    && (forall o | o in os && SyncWave(o).Some? :: exists g | g in plan :: g.wave == SyncWave(o).value)
  }

  predicate Descending(plan: Plan) {
    forall i, j | 0 <= i < j < |plan| :: plan[i].wave > plan[j].wave
  }

  predicate Ascending(plan: Plan) {
    forall i, j | 0 <= i < j < |plan| :: plan[i].wave < plan[j].wave
  }

  predicate DeletionPlan(plan: Plan, os: seq<RenderedObject>) {
    Descending(plan) && Covers(plan, os)
  }

  lemma MemberOfGroup(g: Group, os: seq<RenderedObject>, o: RenderedObject)
    requires Holds(g, os)
    ensures o in g.objects <==> o in os && InWave(o, g.wave)
  {
    assert o in g.objects <==> o in multiset(g.objects);
    assert o in OfWave(os, g.wave) <==> o in multiset(OfWave(os, g.wave));
  }

  lemma {:induction false} DistinctCountsOne(os: seq<RenderedObject>, o: RenderedObject)
    requires DistinctObjects(os)
    ensures multiset(os)[o] <= 1
  {
    if os != [] {
      DistinctCountsOne(os[1..], o);
      assert os == [os[0]] + os[1..];
      if o == os[0] {
        assert o !in os[1..];
      }
    }
  }

  lemma TwiceCountsTwo(os: seq<RenderedObject>, i: nat, j: nat)
    requires i < j < |os| && os[i] == os[j]
    ensures multiset(os)[os[i]] >= 2
  {
    assert os == os[..i] + [os[i]] + os[i + 1..j] + [os[j]] + os[j + 1..];
  }

  /** Sorting a wave introduces no duplicates. */
  lemma GroupDistinct(g: Group, os: seq<RenderedObject>)
    requires Holds(g, os) && DistinctObjects(os)
    ensures DistinctObjects(g.objects)
  {
    forall i, j | 0 <= i < j < |g.objects|
      ensures g.objects[i].id != g.objects[j].id
    {
      var a, b := g.objects[i], g.objects[j];
      if a.id == b.id {
        MemberOfGroup(g, os, a);
        MemberOfGroup(g, os, b);
        TwiceCountsTwo(g.objects, i, j);
        OfWaveCounts(os, g.wave, a);
        DistinctCountsOne(os, a);
        assert false;
      }
    }
  }

  // ----- Flattening --------------------------------------------------------------------------

  function Flatten(plan: Plan): seq<RenderedObject> {
    if plan == [] then [] else plan[0].objects + Flatten(plan[1..])
  }

  predicate Ordered(a: RenderedObject, b: RenderedObject, ascending: bool) {
    && SyncWave(a).Some? && SyncWave(b).Some?
    && var wa, wb := SyncWave(a).value, SyncWave(b).value;
       (if ascending then wa < wb else wa > wb) || (wa == wb && AtMost(a.id.kind, b.id.kind))
  }

  lemma {:induction false} FlattenCounts(plan: Plan, os: seq<RenderedObject>, o: RenderedObject)
    requires Ascending(plan) || Descending(plan)
    requires forall g | g in plan :: Holds(g, os)
    ensures multiset(Flatten(plan))[o] ==
            if exists g | g in plan :: InWave(o, g.wave) then multiset(os)[o] else 0
  {
    if plan != [] {
      assert forall g | g in plan[1..] :: g in plan;
      FlattenCounts(plan[1..], os, o);
      OfWaveCounts(os, plan[0].wave, o);
      assert plan[0] in plan;
      assert forall g | g in plan :: g == plan[0] || g in plan[1..];
    }
  }

  lemma {:induction false} FlattenWave(plan: Plan, os: seq<RenderedObject>, i: nat) returns (k: nat)
    requires forall g | g in plan :: Holds(g, os)
    requires i < |Flatten(plan)|
    ensures k < |plan| && InWave(Flatten(plan)[i], plan[k].wave)
  {
    var n := |plan[0].objects|;
    if i < n {
      k := 0;
      MemberOfGroup(plan[0], os, plan[0].objects[i]);
    } else {
      assert forall g | g in plan[1..] :: g in plan;
      k := FlattenWave(plan[1..], os, i - n);
      k := k + 1;
    }
  }

  lemma GroupOrdered(g: Group, os: seq<RenderedObject>, ascending: bool, i: nat, j: nat)
    requires Holds(g, os) && i < j < |g.objects|
    ensures Ordered(g.objects[i], g.objects[j], ascending)
  {
    MemberOfGroup(g, os, g.objects[i]);
    MemberOfGroup(g, os, g.objects[j]);
  }

  lemma HeadBeforeTail(plan: Plan, os: seq<RenderedObject>, ascending: bool, i: nat, j: nat)
    requires plan != [] && if ascending then Ascending(plan) else Descending(plan)
    requires forall g | g in plan :: Holds(g, os)
    requires i < |plan[0].objects| && j < |Flatten(plan[1..])|
    ensures Ordered(plan[0].objects[i], Flatten(plan[1..])[j], ascending)
  {
    MemberOfGroup(plan[0], os, plan[0].objects[i]);
    assert forall g | g in plan[1..] :: g in plan;
    var k := FlattenWave(plan[1..], os, j);
    assert plan[1..][k] == plan[k + 1];
  }

  lemma {:induction false} FlattenOrdered(plan: Plan, os: seq<RenderedObject>, ascending: bool, i: nat, j: nat)
    requires if ascending then Ascending(plan) else Descending(plan)
    requires forall g | g in plan :: Holds(g, os)
    requires i < j < |Flatten(plan)|
    ensures Ordered(Flatten(plan)[i], Flatten(plan)[j], ascending)
  {
    var n := |plan[0].objects|;
    assert plan[0] in plan && forall g | g in plan[1..] :: g in plan;
    if n <= i {
      FlattenOrdered(plan[1..], os, ascending, i - n, j - n);
    } else if j < n {
      GroupOrdered(plan[0], os, ascending, i, j);
    } else {
      HeadBeforeTail(plan, os, ascending, i, j - n);
    }
  }

  ghost predicate SortedPermutation(flat: seq<RenderedObject>, os: seq<RenderedObject>, ascending: bool) {
    && (forall o :: multiset(flat)[o] == if SyncWave(o).Some? then multiset(os)[o] else 0)
    && (forall i, j | 0 <= i < j < |flat| :: Ordered(flat[i], flat[j], ascending))
  }

  /**
   Flattening a plan loses and repeats nothing, whatever the plan: the result holds exactly the
   objects whose wave is an integer, each as often as it was added, in (wave, kind) order.
   */
  lemma FlattenIsSortedPermutation(plan: Plan, os: seq<RenderedObject>, ascending: bool)
    requires if ascending then Ascending(plan) else Descending(plan)
    requires Covers(plan, os)
    ensures SortedPermutation(Flatten(plan), os, ascending)
  {
    forall o
      ensures multiset(Flatten(plan))[o] == if SyncWave(o).Some? then multiset(os)[o] else 0
    {
      FlattenCounts(plan, os, o);
    }
    forall i, j | 0 <= i < j < |Flatten(plan)|
      ensures Ordered(Flatten(plan)[i], Flatten(plan)[j], ascending)
    {
      FlattenOrdered(plan, os, ascending, i, j);
    }
  }

  // ----- The map -----------------------------------------------------------------------------

  /** Orders the map keys, in either direction. */
  method SortWaves(keys: set<int>, ascending: bool) returns (r: seq<int>)
    ensures forall k :: k in r <==> k in keys
    ensures forall i, j | 0 <= i < j < |r| :: if ascending then r[i] < r[j] else r[i] > r[j]
  {
    r := [];
    var rest := keys;
    while rest != {}
      invariant rest <= keys
      invariant forall k :: k in keys <==> k in r || k in rest
      invariant forall k | k in r :: k !in rest
      invariant forall i, j | 0 <= i < j < |r| :: if ascending then r[i] < r[j] else r[i] > r[j]
    {
      var k := AnyOf(rest);
      rest := rest - {k};
      var p := 0;
      while p < |r| && (if ascending then r[p] < k else r[p] > k)
        invariant 0 <= p <= |r|
        invariant forall i | 0 <= i < p :: if ascending then r[i] < k else r[i] > k
      {
        p := p + 1;
      }
      ghost var was := r;
      r := r[..p] + [k] + r[p..];
      assert was == was[..p] + was[p..];
      assert forall x :: x in r <==> x in was[..p] || x == k || x in was[p..];
      assert forall x :: x in was <==> x in was[..p] || x in was[p..];
    }
  }

  /** Orders one wave's objects by kind. */
  method SortObjects(os: seq<RenderedObject>) returns (r: seq<RenderedObject>)
    ensures multiset(r) == multiset(os)
    ensures SortedByKind(r)
  {
    r := [];
    for n := 0 to |os|
      invariant multiset(r) == multiset(os[..n])
      invariant SortedByKind(r)
    {
      assert os[..n + 1] == os[..n] + [os[n]];
      r := InsertByKind(r, os[n]);
    }
    assert os[..|os|] == os;
  }

  method InsertByKind(os: seq<RenderedObject>, o: RenderedObject) returns (r: seq<RenderedObject>)
    requires SortedByKind(os)
    ensures multiset(r) == multiset(os) + multiset{o}
    ensures SortedByKind(r)
  {
    var p := |os|;
    while p > 0 && Before(o.id.kind, os[p - 1].id.kind)
      invariant 0 <= p <= |os|
      invariant forall i | p <= i < |os| :: AtMost(o.id.kind, os[i].id.kind)
    {
      p := p - 1;
    }
    r := os[..p] + [o] + os[p..];
    assert os == os[..p] + os[p..];
    if p > 0 {
      BeforeTotal(os[p - 1].id.kind, o.id.kind);
    }
    InsertedSorted(os, o, p);
  }

  lemma InsertedSorted(os: seq<RenderedObject>, o: RenderedObject, p: nat)
    requires p <= |os| && SortedByKind(os)
    requires forall i | p <= i < |os| :: AtMost(o.id.kind, os[i].id.kind)
    requires p > 0 ==> AtMost(os[p - 1].id.kind, o.id.kind)
    ensures SortedByKind(os[..p] + [o] + os[p..])
  {
    forall i | 0 <= i < p
      ensures AtMost(os[i].id.kind, o.id.kind)
    {
      if i < p - 1 {
        AtMostTransitive(os[i].id.kind, os[p - 1].id.kind, o.id.kind);
      }
    }
  }

  class SyncWaveMap {
    var data: map<int, seq<RenderedObject>>
    ghost var added: seq<RenderedObject>

    ghost predicate Valid()
      reads this
    {
      && (forall w | w in data :: multiset(data[w]) == multiset(OfWave(added, w)))
      && (forall o | o in added && SyncWave(o).Some? :: SyncWave(o).value in data)
    }

    constructor ()
      ensures Valid() && added == []
    {
      data := map[];
      added := [];
    }

    /** An object whose wave is not an integer is refused. */
    method Add(o: RenderedObject) returns (ok: bool)
      requires Valid()
      modifies this
      ensures Valid() && added == old(added) + [o]
      ensures ok <==> SyncWave(o).Some?
      ensures !ok ==> data == old(data)
    {
      forall w {
        OfWaveAppend(added, o, w);
      }
      added := added + [o];
      match SyncWave(o)
      case None =>
        ok := false;
      case Some(w) =>
        ok := true;
        if w !in data {
          NoneOfWave(old(added), w);
          data := data[w := []];
        }
        data := data[w := data[w] + [o]];
    }

    method AddObjects(os: seq<RenderedObject>) returns (failures: nat)
      requires Valid()
      modifies this
      ensures Valid() && added == old(added) + os
      ensures failures == 0 <==> forall o | o in os :: SyncWave(o).Some?
    {
      failures := 0;
      for n := 0 to |os|
        invariant Valid() && added == old(added) + os[..n]
        invariant failures == 0 <==> forall o | o in os[..n] :: SyncWave(o).Some?
      {
        assert os[..n + 1] == os[..n] + [os[n]];
        var ok := Add(os[n]);
        if !ok {
          failures := failures + 1;
        }
      }
      assert os[..|os|] == os;
    }

    /** Sorts the stored slice in place and hands it out. */
    method GetObjectsForSyncWave(w: int) returns (r: seq<RenderedObject>)
      requires Valid()
      modifies this`data
      ensures Valid() && data.Keys == old(data.Keys)
      ensures Holds(Group(w, r), added)
    {
      if w in data {
        r := SortObjects(data[w]);
        data := data[w := r];
      } else {
        NoneOfWave(added, w);
        r := [];
      }
    }

    /** The groups in the requested order of their waves, each sorted by kind. */
    method Groups(ascending: bool) returns (plan: Plan)
      requires Valid()
      modifies this`data
      ensures Valid()
      ensures if ascending then Ascending(plan) else Descending(plan)
      ensures Covers(plan, added)
    {
      var waves := SortWaves(data.Keys, ascending);
      plan := [];
      for n := 0 to |waves|
        invariant Valid() && data.Keys == old(data.Keys)
        invariant |plan| == n && forall i | 0 <= i < n :: plan[i].wave == waves[i]
        invariant forall g | g in plan :: Holds(g, added)
      {
        var group := GetObjectsForSyncWave(waves[n]);
        plan := plan + [Group(waves[n], group)];
      }
      forall o | o in added && SyncWave(o).Some?
        ensures exists g | g in plan :: g.wave == SyncWave(o).value
      {
        var i :| 0 <= i < |waves| && waves[i] == SyncWave(o).value;
        assert plan[i] in plan;
      }
    }
  }

  lemma NoneOfWave(os: seq<RenderedObject>, w: int)
    requires forall o | o in os && SyncWave(o).Some? :: SyncWave(o).value != w
    ensures OfWave(os, w) == []
  {
    if os != [] {
      assert os[0] in os;
      NoneOfWave(os[1..], w);
    }
  }

  /** The objects by action, each action with its own waves. */
  class RenderedObjectCollection {
    const prune: SyncWaveMap
    const suppress: SyncWaveMap
    const render: SyncWaveMap

    ghost predicate Valid()
      reads this, prune, suppress, render
    {
      && prune != suppress && suppress != render && render != prune
      && prune.Valid() && suppress.Valid() && render.Valid()
    }

    constructor ()
      ensures Valid() && fresh(prune) && fresh(suppress) && fresh(render)
      ensures prune.added == suppress.added == render.added == []
    {
      prune := new SyncWaveMap();
      suppress := new SyncWaveMap();
      render := new SyncWaveMap();
    }

    method AddObject(o: RenderedObject) returns (ok: bool)
      requires Valid()
      modifies prune, suppress, render
      ensures Valid()
      ensures prune.added == old(prune.added) + if o.action == Prune then [o] else []
      ensures suppress.added == old(suppress.added) + if o.action == Suppress then [o] else []
      ensures render.added == old(render.added) + if o.action == Render then [o] else []
      ensures ok <==> SyncWave(o).Some?
    {
      match o.action
      case Render => ok := render.Add(o);
      case Prune => ok := prune.Add(o);
      case Suppress => ok := suppress.Add(o);
    }

    method AddObjects(os: seq<RenderedObject>) returns (failures: nat)
      requires Valid()
      modifies prune, suppress, render
      ensures Valid()
      ensures prune.added == old(prune.added) + WithAction(os, Prune)
      ensures suppress.added == old(suppress.added) + WithAction(os, Suppress)
      ensures render.added == old(render.added) + WithAction(os, Render)
      ensures failures == 0 <==> forall o | o in os :: SyncWave(o).Some?
    {
      failures := 0;
      for n := 0 to |os|
        invariant Valid()
        invariant prune.added == old(prune.added) + WithAction(os[..n], Prune)
        invariant suppress.added == old(suppress.added) + WithAction(os[..n], Suppress)
        invariant render.added == old(render.added) + WithAction(os[..n], Render)
        invariant failures == 0 <==> forall o | o in os[..n] :: SyncWave(o).Some?
      {
        assert os[..n + 1] == os[..n] + [os[n]];
        Grow(old(prune.added), os, n, Prune);
        Grow(old(suppress.added), os, n, Suppress);
        Grow(old(render.added), os, n, Render);
        var ok := AddObject(os[n]);
        if !ok {
          failures := failures + 1;
        }
      }
      assert os[..|os|] == os;
    }

    /** Lowest wave first, as the objects are applied. */
    method GetRenderObjects() returns (r: seq<RenderedObject>)
      requires Valid()
      modifies render`data
      ensures Valid()
      ensures SortedPermutation(r, render.added, true)
    {
      var plan := render.Groups(true);
      FlattenIsSortedPermutation(plan, render.added, true);
      r := Concatenate(plan);
    }

    /** Highest wave first, as the objects are pruned. */
    method GetPruneObjects() returns (r: seq<RenderedObject>)
      requires Valid()
      modifies prune`data
      ensures Valid()
      ensures SortedPermutation(r, prune.added, false)
    {
      var plan := prune.Groups(false);
      FlattenIsSortedPermutation(plan, prune.added, false);
      r := Concatenate(plan);
    }

    method GetSuppressObjects() returns (r: seq<RenderedObject>)
      requires Valid()
      modifies suppress`data
      ensures Valid()
      ensures SortedPermutation(r, suppress.added, true)
    {
      var plan := suppress.Groups(true);
      FlattenIsSortedPermutation(plan, suppress.added, true);
      r := Concatenate(plan);
    }
  }

  function WithAction(os: seq<RenderedObject>, action: Action): seq<RenderedObject> {
    if os == [] then []
    else WithAction(os[..|os| - 1], action) + if os[|os| - 1].action == action then [os[|os| - 1]] else []
  }

  lemma Grow(was: seq<RenderedObject>, os: seq<RenderedObject>, n: nat, action: Action)
    requires n < |os|
    ensures was + WithAction(os[..n + 1], action) ==
            was + WithAction(os[..n], action) + if os[n].action == action then [os[n]] else []
  {
    assert os[..n + 1][..n] == os[..n];
  }

  method Concatenate(plan: Plan) returns (r: seq<RenderedObject>)
    ensures r == Flatten(plan)
  {
    r := [];
    for n := 0 to |plan|
      invariant r + Flatten(plan[n..]) == Flatten(plan)
    {
      assert plan[n..][1..] == plan[n + 1..];
      r := r + plan[n].objects;
    }
  }
}
