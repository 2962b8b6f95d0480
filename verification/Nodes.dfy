/**
 The analysis of node changes: nodes are matched by a key, nodes that keep their key may only change in
 permitted fields, and a label says what kind of change it is. The methods are the operator's code, the
 functions what they compute, the lemmas what that means when keys are distinct.
 */
module Nodes {
  import opened Kube
  import J = Json
  import Text

  /** A node's fields, as they are written to JSON. */
  type Node = J.Fields

  const HOST_NAME := "hostName"
  const BMC_ADDRESS := "bmcAddress"
  const BOOT_MAC := "bootMACAddress"
  const CPU := "cpuArchitecture"

  function Field(n: Node, k: string): string {
    if k in n && n[k].Str? then n[k].text else ""
  }

  /** A field of a document's outermost object. */
  function Top(k: string): string {
    "/" + k
  }

  /** generateNodeMatchingKey; `None` is its error. */
  function NodeKey(n: Node): Option<string> {
    if Field(n, HOST_NAME) != "" then Some("host:" + Field(n, HOST_NAME))
    else if Field(n, BMC_ADDRESS) != "" then Some("bmc:" + Field(n, BMC_ADDRESS))
    else if Field(n, BOOT_MAC) != "" then Some("mac:" + Field(n, BOOT_MAC))
    else None
  }

  predicate AllKeyed(ns: seq<Node>) {
    forall n | n in ns :: NodeKey(n).Some?
  }

  /** The map the operator's loops build; the last node with a key wins. */
  function ByKey(ns: seq<Node>): map<string, Node>
    requires AllKeyed(ns)
  {
    if ns == [] then map[]
    else
      var last := |ns| - 1;
      KeyedFront(ns, last);
      ByKey(ns[..last])[NodeKey(ns[last]).value := ns[last]]
  }

  lemma KeyedFront(ns: seq<Node>, n: nat)
    requires n <= |ns| && AllKeyed(ns)
    ensures AllKeyed(ns[..n]) && AllKeyed(ns[n..])
    ensures n < |ns| ==> NodeKey(ns[n]).Some?
  {
    assert forall m | m in ns[..n] :: m in ns;
    assert forall m | m in ns[n..] :: m in ns;
  }

  ghost predicate HasKey(ns: seq<Node>, k: string) {
    exists i | 0 <= i < |ns| :: NodeKey(ns[i]) == Some(k)
  }

  lemma {:induction false} ByKeyIff(ns: seq<Node>, k: string)
    requires AllKeyed(ns)
    ensures k in ByKey(ns) <==> HasKey(ns, k)
    ensures k in ByKey(ns) ==> ByKey(ns)[k] in ns && NodeKey(ByKey(ns)[k]) == Some(k)
  {
    if ns != [] {
      var last := |ns| - 1;
      KeyedFront(ns, last);
      ByKeyIff(ns[..last], k);
      if HasKey(ns, k) && NodeKey(ns[last]) != Some(k) {
        var i :| 0 <= i < |ns| && NodeKey(ns[i]) == Some(k);
        assert ns[..last][i] == ns[i];
      }
      if HasKey(ns[..last], k) {
        var i :| 0 <= i < last && NodeKey(ns[..last][i]) == Some(k);
        assert NodeKey(ns[i]) == Some(k);
      }
    }
  }

  lemma ByKeyGrows(ns: seq<Node>, n: nat)
    requires n < |ns| && AllKeyed(ns[..n]) && NodeKey(ns[n]).Some?
    ensures AllKeyed(ns[..n + 1]) && ByKey(ns[..n + 1]) == ByKey(ns[..n])[NodeKey(ns[n]).value := ns[n]]
  {
    assert ns[..n + 1] == ns[..n] + [ns[n]];
    assert ns[..n + 1][..n] == ns[..n];
  }

  /** The map, or nothing if some node has no key. */
  method BuildMap(ns: seq<Node>) returns (keyed: bool, m: map<string, Node>)
    ensures keyed <==> AllKeyed(ns)
    ensures keyed ==> m == ByKey(ns)
  {
    m := map[];
    for i := 0 to |ns|
      invariant AllKeyed(ns[..i]) && m == ByKey(ns[..i])
    {
      var key := NodeKey(ns[i]);
      if key.None? {
        return false, map[];
      }
      ByKeyGrows(ns, i);
      m := m[key.value := ns[i]];
    }
    assert ns[..|ns|] == ns;
    return true, m;
  }

  // ----- What may change in a node -----------------------------------------------------------

  const BASE_FIELDS := ["extraAnnotations", "extraLabels", "suppressedManifests", "pruneManifests"]
  const REINSTALL_FIELDS := ["bmcAddress", "bootMACAddress", "nodeNetwork/interfaces", "rootDeviceHints"]

  function PermissibleFields(reinstall: bool): seq<string> {
    BASE_FIELDS + if reinstall then REINSTALL_FIELDS else []
  }

  /** The test is whether the path contains the field's name, wherever. */
  ghost predicate Permissible(path: string, reinstall: bool) {
    exists field | field in PermissibleFields(reinstall) :: Text.Contains(path, field)
  }

  method IsPermissibleNodeChange(path: string, reinstall: bool) returns (r: bool)
    ensures r <==> Permissible(path, reinstall)
  {
    var fields := PermissibleFields(reinstall);
    for i := 0 to |fields|
      invariant forall j | 0 <= j < i :: !Text.Contains(path, fields[j])
    {
      if Text.Contains(path, fields[i]) {
        return true;
      }
    }
    return false;
  }

  predicate IsUpgrade(op: J.Operation) {
    op.path == Top(CPU) && !op.change.Replace?
  }

  /** A matched pair of nodes differs on permitted paths only. */
  ghost predicate Authorized(a: Node, b: Node, reinstall: bool) {
    && Field(a, HOST_NAME) == Field(b, HOST_NAME)
    && (!reinstall ==> Field(a, BMC_ADDRESS) == Field(b, BMC_ADDRESS) && Field(a, BOOT_MAC) == Field(b, BOOT_MAC))
    && forall op | J.Reports("", J.Object(a), J.Object(b), op) :: IsUpgrade(op) || Permissible(op.path, reinstall)
  }

  method GetUnauthorizedChanges(a: Node, b: Node, reinstall: bool) returns (unauthorized: seq<string>)
    ensures unauthorized == [] <==> Authorized(a, b, reinstall)
  {
    unauthorized := [];
    if Field(a, BMC_ADDRESS) != Field(b, BMC_ADDRESS) && !reinstall {
      unauthorized := unauthorized + [Top(BMC_ADDRESS)];
    }
    if Field(a, BOOT_MAC) != Field(b, BOOT_MAC) && !reinstall {
      unauthorized := unauthorized + [Top(BOOT_MAC)];
    }
    if Field(a, HOST_NAME) != Field(b, HOST_NAME) {
      unauthorized := unauthorized + [Top(HOST_NAME)];
    }
    if unauthorized == [] {
      var ops := J.Compare("", J.Object(a), J.Object(b));
      for i := 0 to |ops|
        invariant unauthorized == [] <==> forall j | 0 <= j < i :: IsUpgrade(ops[j]) || Permissible(ops[j].path, reinstall)
      {
        if !IsUpgrade(ops[i]) {
          var permissible := IsPermissibleNodeChange(ops[i].path, reinstall);
          if !permissible {
            unauthorized := unauthorized + [ops[i].path];
          }
        }
      }
    }
  }

  // ----- The analysis ------------------------------------------------------------------------

  method AreSameNodeSets(olds: seq<Node>, news: seq<Node>) returns (same: bool)
    ensures same <==> |olds| == |news| && AllKeyed(olds) && AllKeyed(news) && ByKey(olds) == ByKey(news)
  {
    if |olds| != |news| {
      return false;
    }
    var keyed, oldMap := BuildMap(olds);
    if !keyed {
      return false;
    }
    var newMap: map<string, Node> := map[];
    for i := 0 to |news|
      invariant AllKeyed(news[..i]) && newMap == ByKey(news[..i])
      invariant newMap.Keys <= oldMap.Keys
    {
      var key := NodeKey(news[i]);
      if key.None? {
        return false;
      }
      ByKeyGrows(news, i);
      newMap := newMap[key.value := news[i]];
      if key.value !in oldMap {
        if AllKeyed(news) {
          ByKeyIff(news, key.value);
        }
        return false;
      }
    }
    assert news[..|news|] == news;
    var keys := oldMap.Keys;
    while keys != {}
      invariant keys <= oldMap.Keys
      invariant forall k | k in oldMap && k !in keys :: k in newMap && newMap[k] == oldMap[k]
    {
      var key := AnyOf(keys);
      keys := keys - {key};
      if key !in newMap || newMap[key] != oldMap[key] {
        return false;
      }
    }
    return true;
  }

  datatype Replacement = KeyError | Pure | NotPure

  /** The first new node without a key, or with the key of an old one, decides. */
  function ReplacementFrom(oldKeys: set<string>, news: seq<Node>): Replacement {
    if news == [] then Pure
    else if NodeKey(news[0]).None? then KeyError
    else if NodeKey(news[0]).value in oldKeys then NotPure
    else ReplacementFrom(oldKeys, news[1..])
  }

  method IsPureNodeReplacement(olds: seq<Node>, news: seq<Node>) returns (r: Replacement)
    ensures r == if |olds| != |news| then NotPure
                 else if !AllKeyed(olds) then KeyError
                 else ReplacementFrom(ByKey(olds).Keys, news)
  {
    if |olds| != |news| {
      return NotPure;
    }
    var keyed, oldMap := BuildMap(olds);
    if !keyed {
      return KeyError;
    }
    for i := 0 to |news|
      invariant ReplacementFrom(oldMap.Keys, news) == ReplacementFrom(oldMap.Keys, news[i..])
    {
      assert news[i..][1..] == news[i + 1..];
      var key := NodeKey(news[i]);
      if key.None? {
        return KeyError;
      }
      if key.value in oldMap {
        return NotPure;
      }
    }
    return Pure;
  }

  /** The nodes of one list whose keys are not in the other. */
  function Missing(ns: seq<Node>, keys: set<string>): (r: seq<Node>)
    requires AllKeyed(ns)
    ensures forall n :: n in r <==> n in ns && NodeKey(n).value !in keys
  {
    if ns == [] then []
    else
      var rest := Missing(ns[1..], keys);
      if NodeKey(ns[0]).value in keys then rest else [ns[0]] + rest
  }

  method FindMissing(ns: seq<Node>, m: map<string, Node>) returns (r: seq<Node>)
    requires AllKeyed(ns)
    ensures r == Missing(ns, m.Keys)
  {
    r := [];
    for i := 0 to |ns|
      invariant r + Missing(ns[i..], m.Keys) == Missing(ns, m.Keys)
    {
      assert ns[i..][1..] == ns[i + 1..];
      if NodeKey(ns[i]).value !in m {
        r := r + [ns[i]];
      }
    }
  }

  method AnalyzeNodeAdditionsAndRemovals(olds: seq<Node>, news: seq<Node>)
    returns (ok: bool, added: seq<Node>, removed: seq<Node>)
    ensures ok <==> AllKeyed(olds) && AllKeyed(news)
    ensures ok ==> added == Missing(news, ByKey(olds).Keys) && removed == Missing(olds, ByKey(news).Keys)
  {
    added, removed := [], [];
    var oldMap, newMap;
    ok, oldMap := BuildMap(olds);
    if !ok {
      return;
    }
    ok, newMap := BuildMap(news);
    if !ok {
      return;
    }
    added := FindMissing(news, oldMap);
    removed := FindMissing(olds, newMap);
  }

  /** No node that keeps its key is changed where it may not be. */
  ghost predicate MatchesAuthorized(olds: seq<Node>, news: seq<Node>, reinstall: bool)
    requires AllKeyed(olds)
  {
    forall n | n in news && NodeKey(n).Some? && NodeKey(n).value in ByKey(olds) ::
      Authorized(ByKey(olds)[NodeKey(n).value], n, reinstall)
  }

  method CheckNodeModifications(olds: seq<Node>, news: seq<Node>, reinstall: bool) returns (unauthorized: bool)
    ensures unauthorized <==> !AllKeyed(olds) || !AllKeyed(news) || !MatchesAuthorized(olds, news, reinstall)
  {
    var keyed, oldMap := BuildMap(olds);
    if !keyed {
      return true;
    }
    unauthorized := false;
    for i := 0 to |news|
      invariant AllKeyed(news[..i])
      invariant unauthorized <==> !MatchesAuthorized(olds, news[..i], reinstall)
    {
      assert news[..i + 1] == news[..i] + [news[i]];
      var key := NodeKey(news[i]);
      if key.None? {
        assert news[i] in news;
        return true;
      }
      if key.value in oldMap {
        var changes := GetUnauthorizedChanges(oldMap[key.value], news[i], reinstall);
        if changes != [] {
          assert news[i] in news[..i + 1];
          unauthorized := true;
        }
      }
    }
    assert news[..|news|] == news;
  }

  datatype OperationType = NoChange | Replacing | Modification | ScaleOut | ScaleIn | Mixed | Invalid

  datatype Analysis = Analysis(operation: OperationType, unauthorized: bool)

  /** What the analysis finds, key collisions included. */
  ghost function AnalysisOf(olds: seq<Node>, news: seq<Node>, reinstall: bool): Analysis {
    if !AllKeyed(olds) then Analysis(Invalid, true)
    else if |olds| == |news| then
      if AllKeyed(news) && ByKey(olds) == ByKey(news) then Analysis(NoChange, false)
      else
        match ReplacementFrom(ByKey(olds).Keys, news)
        case KeyError => Analysis(Invalid, true)
        case Pure => Analysis(Replacing, false)
        case NotPure => Analysis(Modification, !AllKeyed(news) || !MatchesAuthorized(olds, news, reinstall))
    else if !AllKeyed(news) then Analysis(Invalid, true)
    else
      Analysis(if Missing(news, ByKey(olds).Keys) == [] then ScaleIn
               else if Missing(olds, ByKey(news).Keys) == [] then ScaleOut
               else Mixed,
               !MatchesAuthorized(olds, news, reinstall))
  }

  method AnalyzeNodeChanges(olds: seq<Node>, news: seq<Node>, reinstall: bool) returns (r: Analysis)
    ensures r == AnalysisOf(olds, news, reinstall)
  {
    if |olds| == |news| {
      var same := AreSameNodeSets(olds, news);
      if same {
        return Analysis(NoChange, false);
      }
      var replacement := IsPureNodeReplacement(olds, news);
      if replacement == KeyError {
        return Analysis(Invalid, true);
      }
      if replacement == Pure {
        return Analysis(Replacing, false);
      }
      var unauthorized := CheckNodeModifications(olds, news, reinstall);
      return Analysis(Modification, unauthorized);
    }
    var ok, added, removed := AnalyzeNodeAdditionsAndRemovals(olds, news);
    if !ok {
      return Analysis(Invalid, true);
    }
    var operation;
    if |added| > 0 && |removed| > 0 {
      operation := Mixed;
    } else if |added| > 0 {
      operation := ScaleOut;
    } else {
      operation := ScaleIn;
    }
    var unauthorized := CheckNodeModifications(olds, news, reinstall);
    r := Analysis(operation, unauthorized);
  }

  // ----- What the analysis means -------------------------------------------------------------

  /** Every node has a key and no two nodes share one. */
  predicate DistinctKeys(ns: seq<Node>) {
    AllKeyed(ns) && forall i, j | 0 <= i < j < |ns| :: NodeKey(ns[i]) != NodeKey(ns[j])
  }

  function Keys(ns: seq<Node>): set<string>
    requires AllKeyed(ns)
  {
    ByKey(ns).Keys
  }

  /** What kind of change takes one list to the other, said of the sets of nodes and of keys. */
  function Operate(olds: seq<Node>, news: seq<Node>): OperationType
    requires AllKeyed(olds) && AllKeyed(news)
  {
    if multiset(olds) == multiset(news) then NoChange
    else if |olds| == |news| then (if Keys(olds) !! Keys(news) then Replacing else Modification)
    else if Keys(olds) < Keys(news) then ScaleOut
    else if Keys(news) < Keys(olds) then ScaleIn
    else Mixed
  }

  lemma {:induction false} ByKeyAt(ns: seq<Node>, i: nat)
    requires DistinctKeys(ns) && i < |ns|
    ensures NodeKey(ns[i]).Some? && NodeKey(ns[i]).value in ByKey(ns) && ByKey(ns)[NodeKey(ns[i]).value] == ns[i]
  {
    var last := |ns| - 1;
    KeyedFront(ns, i);
    KeyedFront(ns, last);
    if i < last {
      assert ns[..last][i] == ns[i];
      ByKeyAt(ns[..last], i);
    }
  }

  lemma ByKeyOf(ns: seq<Node>, n: Node)
    requires DistinctKeys(ns) && n in ns
    ensures NodeKey(n).value in ByKey(ns) && ByKey(ns)[NodeKey(n).value] == n
  {
    var i :| 0 <= i < |ns| && ns[i] == n;
    ByKeyAt(ns, i);
  }

  lemma {:induction false} KeysCount(ns: seq<Node>)
    requires DistinctKeys(ns)
    ensures |Keys(ns)| == |ns|
  {
    if ns != [] {
      var last := |ns| - 1;
      KeyedFront(ns, last);
      KeysCount(ns[..last]);
      var k := NodeKey(ns[last]).value;
      ByKeyIff(ns[..last], k);
      assert Keys(ns) == Keys(ns[..last]) + {k};
    }
  }

  lemma {:induction false} CountOfOne(ns: seq<Node>, n: Node)
    requires DistinctKeys(ns)
    ensures multiset(ns)[n] == if n in ns then 1 else 0
  {
    if ns != [] {
      var last := |ns| - 1;
      assert ns == ns[..last] + [ns[last]];
      KeyedFront(ns, last);
      CountOfOne(ns[..last], n);
      assert ns[last] == n ==> forall i | 0 <= i < last :: NodeKey(ns[i]) != NodeKey(n);
    }
  }

  /** With distinct keys, equal maps mean equal lists up to order. */
  lemma SameIff(olds: seq<Node>, news: seq<Node>)
    requires DistinctKeys(olds) && DistinctKeys(news)
    ensures ByKey(olds) == ByKey(news) <==> multiset(olds) == multiset(news)
  {
    if ByKey(olds) == ByKey(news) {
      forall n: Node
        ensures multiset(olds)[n] == multiset(news)[n]
      {
        CountOfOne(olds, n);
        CountOfOne(news, n);
        if n in olds {
          ByKeyOf(olds, n);
          ByKeyIff(news, NodeKey(n).value);
        }
        if n in news {
          ByKeyOf(news, n);
          ByKeyIff(olds, NodeKey(n).value);
        }
      }
    }
    if multiset(olds) == multiset(news) {
      SameMembers(olds, news);
      forall k
        ensures k in ByKey(olds) <==> k in ByKey(news)
        ensures k in ByKey(olds) && k in ByKey(news) ==> ByKey(olds)[k] == ByKey(news)[k]
      {
        ByKeyIff(olds, k);
        ByKeyIff(news, k);
        if k in ByKey(olds) {
          ByKeyOf(news, ByKey(olds)[k]);
        }
        if k in ByKey(news) {
          ByKeyOf(olds, ByKey(news)[k]);
        }
      }
    }
  }

  lemma SameMembers(a: seq<Node>, b: seq<Node>)
    requires multiset(a) == multiset(b)
    ensures forall n :: n in a <==> n in b
  {
    forall n: Node
      ensures n in a <==> n in b
    {
      assert n in multiset(a) <==> n in multiset(b);
    }
  }

  lemma {:induction false} PureIff(oldKeys: set<string>, news: seq<Node>)
    ensures ReplacementFrom(oldKeys, news) == KeyError ==> !AllKeyed(news)
    ensures ReplacementFrom(oldKeys, news) == Pure <==> AllKeyed(news) && forall n | n in news :: NodeKey(n).value !in oldKeys
  {
    if news != [] {
      assert news[0] in news;
      if NodeKey(news[0]).Some? && NodeKey(news[0]).value !in oldKeys {
        PureIff(oldKeys, news[1..]);
        assert forall n :: n in news <==> n == news[0] || n in news[1..];
      }
    }
  }

  lemma DisjointIff(olds: seq<Node>, news: seq<Node>)
    requires AllKeyed(olds) && AllKeyed(news)
    ensures Keys(olds) !! Keys(news) <==> forall n | n in news :: NodeKey(n).value !in Keys(olds)
  {
    forall n | n in news
      ensures NodeKey(n).value in Keys(news)
    {
      var i :| 0 <= i < |news| && news[i] == n;
      ByKeyIff(news, NodeKey(n).value);
    }
    forall k | k in Keys(news)
      ensures ByKey(news)[k] in news && NodeKey(ByKey(news)[k]) == Some(k)
    {
      ByKeyIff(news, k);
    }
  }

  lemma SameIsAuthorized(olds: seq<Node>, news: seq<Node>, reinstall: bool)
    requires DistinctKeys(olds) && DistinctKeys(news) && ByKey(olds) == ByKey(news)
    ensures MatchesAuthorized(olds, news, reinstall)
  {
    forall n | n in news
      ensures NodeKey(n).value in ByKey(olds) && Authorized(ByKey(olds)[NodeKey(n).value], n, reinstall)
    {
      ByKeyOf(news, n);
    }
  }

  lemma MissingNone(ns: seq<Node>, keys: set<string>)
    requires AllKeyed(ns)
    ensures Missing(ns, keys) == [] <==> Keys(ns) <= keys
  {
    var r := Missing(ns, keys);
    if r != [] {
      assert r[0] in r;
      var i :| 0 <= i < |ns| && ns[i] == r[0];
      ByKeyIff(ns, NodeKey(r[0]).value);
    } else {
      forall k | k in Keys(ns)
        ensures k in keys
      {
        ByKeyIff(ns, k);
        assert ByKey(ns)[k] !in r;
      }
    }
  }

  lemma DifferentCounts(olds: seq<Node>, news: seq<Node>)
    requires DistinctKeys(olds) && DistinctKeys(news) && |olds| != |news|
    ensures multiset(olds) != multiset(news) && Keys(olds) != Keys(news)
  {
    KeysCount(olds);
    KeysCount(news);
    assert |multiset(olds)| == |olds| && |multiset(news)| == |news|;
  }

  /** The scaling labels say how the two sets of keys compare. */
  lemma Labels(olds: seq<Node>, news: seq<Node>)
    requires DistinctKeys(olds) && DistinctKeys(news) && |olds| != |news|
    ensures Operate(olds, news) ==
            if Missing(news, Keys(olds)) == [] then ScaleIn
            else if Missing(olds, Keys(news)) == [] then ScaleOut
            else Mixed
  {
    MissingNone(news, Keys(olds));
    MissingNone(olds, Keys(news));
    DifferentCounts(olds, news);
  }

  /** No two nodes that have a key share one. */
  predicate NoSharedKeys(ns: seq<Node>) {
    forall i, j | 0 <= i < j < |ns| :: NodeKey(ns[i]).Some? ==> NodeKey(ns[i]) != NodeKey(ns[j])
  }

  /**
   With distinct keys, the analysis rejects exactly when a node has no identifier or a node that keeps its
   key differs from its old self on a path that may not change; and its label is the right one.
   */
  lemma AnalysisIff(olds: seq<Node>, news: seq<Node>, reinstall: bool)
    requires NoSharedKeys(olds) && NoSharedKeys(news)
    ensures var a := AnalysisOf(olds, news, reinstall);
            if AllKeyed(olds) && AllKeyed(news)
            then a == Analysis(Operate(olds, news), !MatchesAuthorized(olds, news, reinstall))
            else a.unauthorized
  {
    if AllKeyed(olds) {
      PureIff(Keys(olds), news);
      if AllKeyed(news) {
        SameIff(olds, news);
        DisjointIff(olds, news);
        if ByKey(olds) == ByKey(news) {
          SameIsAuthorized(olds, news, reinstall);
        }
        if |olds| == |news| {
        } else {
          Labels(olds, news);
        }
      }
    }
  }

  lemma {:induction false} MissingCount(ns: seq<Node>, keys: set<string>)
    requires DistinctKeys(ns)
    ensures |Missing(ns, keys)| == |Keys(ns) - keys|
  {
    if ns == [] {
      assert Keys(ns) - keys == {};
    } else {
      FirstKeyIsNew(ns);
      MissingCount(ns[1..], keys);
      OneMore(Keys(ns[1..]), NodeKey(ns[0]).value, keys);
    }
  }

  lemma OneMore(others: set<string>, k: string, keys: set<string>)
    requires k !in others
    ensures |({k} + others) - keys| == |others - keys| + if k in keys then 0 else 1
  {
    assert ({k} + others) - keys == (others - keys) + ({k} - keys);
  }

  lemma FirstKeyIsNew(ns: seq<Node>)
    requires DistinctKeys(ns) && ns != []
    ensures DistinctKeys(ns[1..]) && NodeKey(ns[0]).Some?
    ensures NodeKey(ns[0]).value !in Keys(ns[1..]) && Keys(ns) == {NodeKey(ns[0]).value} + Keys(ns[1..])
  {
    KeysCons(ns);
    ByKeyIff(ns[1..], NodeKey(ns[0]).value);
    assert forall i | 0 <= i < |ns[1..]| :: NodeKey(ns[1..][i]) == NodeKey(ns[i + 1]) != NodeKey(ns[0]);
  }

  lemma KeysCons(ns: seq<Node>)
    requires AllKeyed(ns) && ns != []
    ensures AllKeyed(ns[1..]) && NodeKey(ns[0]).Some? && Keys(ns) == {NodeKey(ns[0]).value} + Keys(ns[1..])
  {
    KeyedFront(ns, 1);
    KeyedFront(ns, 0);
    forall k
      ensures k in Keys(ns) <==> k == NodeKey(ns[0]).value || k in Keys(ns[1..])
    {
      ByKeyIff(ns, k);
      ByKeyIff(ns[1..], k);
      HasKeyCons(ns, k);
    }
  }

  lemma HasKeyCons(ns: seq<Node>, k: string)
    requires ns != []
    ensures HasKey(ns, k) <==> NodeKey(ns[0]) == Some(k) || HasKey(ns[1..], k)
  {
    if HasKey(ns, k) {
      var i :| 0 <= i < |ns| && NodeKey(ns[i]) == Some(k);
      assert i > 0 ==> NodeKey(ns[1..][i - 1]) == Some(k);
    }
    if HasKey(ns[1..], k) {
      var i :| 0 <= i < |ns[1..]| && NodeKey(ns[1..][i]) == Some(k);
      assert NodeKey(ns[i + 1]) == Some(k);
    }
  }

  /** Nodes are conserved: the new count is the old one, plus those added, minus those removed. */
  lemma NodesConserved(olds: seq<Node>, news: seq<Node>)
    requires DistinctKeys(olds) && DistinctKeys(news)
    ensures |news| == |olds| + |Missing(news, Keys(olds))| - |Missing(olds, Keys(news))|
  {
    var a, b := Keys(olds), Keys(news);
    MissingCount(news, a);
    MissingCount(olds, b);
    KeysCount(olds);
    KeysCount(news);
    assert a == (a - b) + (a * b) && b == (b - a) + (a * b);
    assert |a| == |a - b| + |a * b| && |b| == |b - a| + |a * b|;
  }

  /** Neither the label nor the verdict depends on the order in which either list names its nodes. */
  lemma OrderDoesNotMatter(olds: seq<Node>, news: seq<Node>, olds': seq<Node>, news': seq<Node>, reinstall: bool)
    requires DistinctKeys(olds) && DistinctKeys(news) && DistinctKeys(olds') && DistinctKeys(news')
    requires multiset(olds) == multiset(olds') && multiset(news) == multiset(news')
    ensures Operate(olds, news) == Operate(olds', news')
    ensures MatchesAuthorized(olds, news, reinstall) <==> MatchesAuthorized(olds', news', reinstall)
  {
    SameIff(olds, olds');
    SameIff(news, news');
    SameMembers(news, news');
    assert |multiset(olds)| == |olds| && |multiset(olds')| == |olds'|;
    assert |multiset(news)| == |news| && |multiset(news')| == |news'|;
  }

  // ----- The explicit checks -----------------------------------------------------------------

  lemma NotContained(s: string, part: string)
    requires part != ""
    requires forall i | 0 <= i <= |s| - |part| :: s[i] != part[0]
    ensures !Text.Contains(s, part)
  {
    forall i | 0 <= i <= |s|
      ensures !(part <= s[i..])
    {
      assert i < |s| ==> s[i..][0] == s[i];
    }
  }

  lemma IdentifiersAreFixed(reinstall: bool)
    ensures !Permissible(Top(HOST_NAME), reinstall)
    ensures !Permissible(Top(BMC_ADDRESS), false) && !Permissible(Top(BOOT_MAC), false)
  {
    forall field | field in PermissibleFields(reinstall)
      ensures !Text.Contains(Top(HOST_NAME), field)
    {
      NotContained(Top(HOST_NAME), field);
    }
    forall field | field in PermissibleFields(false)
      ensures !Text.Contains(Top(BMC_ADDRESS), field) && !Text.Contains(Top(BOOT_MAC), field)
    {
      NotContained(Top(BMC_ADDRESS), field);
      NotContained(Top(BOOT_MAC), field);
    }
  }

  /** A field that holds text in one of the nodes is reported at its own path. */
  lemma FieldDiffers(a: Node, b: Node, k: string) returns (op: J.Operation)
    requires Field(a, k) != Field(b, k) && '/' !in k && '~' !in k
    ensures op.path == Top(k) && J.Reports("", J.Object(a), J.Object(b), op)
  {
    op := J.FieldReported("", a, b, k);
    assert J.AtKey("", k) == Top(k);
  }

  /**
   The three explicit checks of identifiers add nothing to the check of the differences: a pair of nodes
   is authorized exactly when it differs on permitted paths only.
   */
  lemma AuthorizedIff(a: Node, b: Node, reinstall: bool)
    ensures Authorized(a, b, reinstall) <==>
            forall op | J.Reports("", J.Object(a), J.Object(b), op) :: IsUpgrade(op) || Permissible(op.path, reinstall)
  {
    IdentifiersAreFixed(reinstall);
    if Field(a, HOST_NAME) != Field(b, HOST_NAME) {
      var op := FieldDiffers(a, b, HOST_NAME);
      assert !IsUpgrade(op);
    }
    if !reinstall && Field(a, BMC_ADDRESS) != Field(b, BMC_ADDRESS) {
      var op := FieldDiffers(a, b, BMC_ADDRESS);
      assert !IsUpgrade(op);
    }
    if !reinstall && Field(a, BOOT_MAC) != Field(b, BOOT_MAC) {
      var op := FieldDiffers(a, b, BOOT_MAC);
      assert !IsUpgrade(op);
    }
  }
}
