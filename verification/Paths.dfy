/** The patterns by which a changed path of a spec is allowed. */
module Paths {
  import opened Text
  import J = Json

  predicate SegmentsMatch(path: seq<string>, pattern: seq<string>) {
    && |pattern| <= |path|
    && forall i | 0 <= i < |pattern| :: pattern[i] == "*" || path[i] == pattern[i]
  }

  /** A pattern matches a path and everything below it; "*" stands for any one segment. */
  predicate Matches(path: string, pattern: string) {
    SegmentsMatch(Split(path, '/'), Split(pattern, '/'))
  }

  method PathMatchesPattern(path: string, pattern: string) returns (matches: bool)
    ensures matches == Matches(path, pattern)
  {
    var subPaths := Split(path, '/');
    var subPatterns := Split(pattern, '/');
    if |subPaths| < |subPatterns| {
      return false;
    }
    for i := 0 to |subPatterns|
      invariant forall j | 0 <= j < i :: subPatterns[j] == "*" || subPaths[j] == subPatterns[j]
    {
      if subPatterns[i] != "*" && subPaths[i] != subPatterns[i] {
        return false;
      }
    }
    return true;
  }

  predicate MatchesAny(path: string, patterns: seq<string>) {
    exists pattern | pattern in patterns :: Matches(path, pattern)
  }

  method PathMatchesAnyPattern(path: string, patterns: seq<string>) returns (matches: bool)
    ensures matches == MatchesAny(path, patterns)
  {
    for i := 0 to |patterns|
      invariant forall j | 0 <= j < i :: !Matches(path, patterns[j])
    {
      var m := PathMatchesPattern(path, patterns[i]);
      if m {
        return true;
      }
    }
    return false;
  }

  /** A longer pattern matches less. */
  lemma MatchesPrefix(path: string, pattern: string, rest: string)
    requires Matches(path, pattern + "/" + rest)
    ensures Matches(path, pattern)
  {
    SplitConcat(pattern, rest, '/');
    assert pattern + ['/'] + rest == pattern + "/" + rest;
    var all := Split(pattern + "/" + rest, '/');
    forall i | 0 <= i < |Split(pattern, '/')|
      ensures Split(pattern, '/')[i] == "*" || Split(path, '/')[i] == Split(pattern, '/')[i]
    {
      assert all[i] == Split(pattern, '/')[i];
    }
  }

  /** What a pattern allows, it allows below as well: how finely a difference is reported does not matter. */
  lemma MatchesBelow(path: string, below: string, pattern: string)
    requires Matches(path, pattern)
    ensures Matches(path + "/" + below, pattern)
  {
    SplitConcat(path, below, '/');
    assert path + ['/'] + below == path + "/" + below;
  }

  const NODES := "/nodes"

  const CLUSTER_FIELDS := [
    "extraAnnotations", "extraLabels", "suppressedManifests", "pruneManifests", "clusterImageSetNameRef", "holdInstallation"]
  const NODE_FIELDS := ["*/extraAnnotations", "*/extraLabels", "*/suppressedManifests", "*/pruneManifests"]
  const REINSTALL_CLUSTER_FIELDS := ["reinstall"]
  const REINSTALL_NODE_FIELDS := [
    "*/bmcAddress", "*/bootMACAddress", "*/nodeNetwork/interfaces/*/macAddress", "*/rootDeviceHints"]

  /** The fields below a path, as patterns. */
  function Below(path: string, fields: seq<string>): (patterns: seq<string>)
    ensures forall p | p in patterns :: exists field | field in fields :: p == path + "/" + field
  {
    if fields == [] then [] else [path + "/" + fields[0]] + Below(path, fields[1..])
  }

  function ClusterPaths(): seq<string> {
    Below("", CLUSTER_FIELDS)
  }

  function ReinstallPaths(): seq<string> {
    Below("", REINSTALL_CLUSTER_FIELDS)
  }

  function AllowedPaths(reinstall: bool): seq<string> {
    ClusterPaths() + Below(NODES, NODE_FIELDS) + if reinstall then ReinstallPaths() + Below(NODES, REINSTALL_NODE_FIELDS) else []
  }

  predicate UnderNodes(path: string) {
    Matches(path, NODES)
  }

  predicate ClusterAllowed(path: string, reinstall: bool) {
    MatchesAny(path, ClusterPaths()) || (reinstall && MatchesAny(path, ReinstallPaths()))
  }

  lemma MatchesAnyConcat(path: string, a: seq<string>, b: seq<string>)
    ensures MatchesAny(path, a + b) <==> MatchesAny(path, a) || MatchesAny(path, b)
  {
    assert forall p :: p in a + b <==> p in a || p in b;
  }

  lemma NodePatternsMatchNothing(path: string, fields: seq<string>)
    requires !UnderNodes(path)
    ensures !MatchesAny(path, Below(NODES, fields))
  {
    forall pattern | pattern in Below(NODES, fields)
      ensures !Matches(path, pattern)
    {
      var field :| field in fields && pattern == NODES + "/" + field;
      if Matches(path, pattern) {
        MatchesPrefix(path, NODES, field);
      }
    }
  }

  /** Off the nodes, only the cluster-level patterns count. */
  lemma AllowedOffNodes(path: string, reinstall: bool)
    requires !UnderNodes(path)
    ensures MatchesAny(path, AllowedPaths(reinstall)) <==> ClusterAllowed(path, reinstall)
  {
    var more := if reinstall then ReinstallPaths() + Below(NODES, REINSTALL_NODE_FIELDS) else [];
    NodePatternsMatchNothing(path, NODE_FIELDS);
    NodePatternsMatchNothing(path, REINSTALL_NODE_FIELDS);
    MatchesAnyConcat(path, ClusterPaths(), Below(NODES, NODE_FIELDS));
    MatchesAnyConcat(path, ClusterPaths() + Below(NODES, NODE_FIELDS), more);
    MatchesAnyConcat(path, ReinstallPaths(), Below(NODES, REINSTALL_NODE_FIELDS));
  }

  // ----- Top-level fields --------------------------------------------------------------------

  /** A name that is neither a wildcard nor needs escaping. */
  predicate PlainName(name: string) {
    '/' !in name && '~' !in name && name != "*"
  }

  /** At a top-level field or below it, a one-segment pattern matches exactly if it names the field. */
  lemma TopMatches(path: string, k: string, name: string)
    requires PlainName(name) && J.Within(path, J.AtKey("", k))
    ensures Matches(path, "/" + name) <==> k == name
  {
    SplitTop(path, k);
    assert J.AtKey("", name) == "/" + name;
    SplitTop("/" + name, name);
    assert Split(path, '/')[..2][0] == Split(path, '/')[0] && Split(path, '/')[..2][1] == Split(path, '/')[1];
    assert Split("/" + name, '/') == ["", name];
  }

  /** A path of one segment is that of one field only. */
  lemma TopIsOne(path: string, k: string, name: string)
    requires PlainName(name) && path == "/" + name && J.Within(path, J.AtKey("", k))
    ensures k == name && path == J.AtKey("", k)
  {
    assert J.AtKey("", name) == "/" + name;
    SplitTop(path, name);
    SplitTop(path, k);
    assert Split(path, '/')[..2][1] == J.Escape(k) == name;
  }

  lemma SplitTop(path: string, k: string)
    requires J.Within(path, J.AtKey("", k))
    ensures |Split(path, '/')| >= 2 && Split(path, '/')[..2] == ["", J.Escape(k)]
    ensures path == J.AtKey("", k) ==> |Split(path, '/')| == 2
  {
    SplitKey(k);
    SplitBelow(path, J.AtKey("", k));
  }

  /** What is below a path starts with the path's segments. */
  lemma SplitBelow(path: string, top: string)
    requires J.Within(path, top)
    ensures Split(top, '/') <= Split(path, '/')
  {
    if path != top {
      var rest := path[|top| + 1..];
      assert path == top + "/" + rest;
      assert top + ['/'] + rest == path;
      SplitConcat(top, rest, '/');
    }
  }

  lemma SplitKey(k: string)
    ensures Split(J.AtKey("", k), '/') == ["", J.Escape(k)]
  {
    var empty: string := [];
    SplitWithout(empty, '/');
    SplitWithout(J.Escape(k), '/');
    SplitConcat(empty, J.Escape(k), '/');
    assert empty + ['/'] + J.Escape(k) == J.AtKey("", k);
  }

  lemma ClusterNames()
    ensures forall name | name in CLUSTER_FIELDS :: PlainName(name)
  {
  }

  lemma ReinstallNames()
    ensures forall name | name in REINSTALL_CLUSTER_FIELDS :: PlainName(name)
  {
  }

  lemma {:induction false} BelowHas(path: string, fields: seq<string>, field: string)
    requires field in fields
    ensures path + "/" + field in Below(path, fields)
  {
    if field != fields[0] {
      BelowHas(path, fields[1..], field);
    }
  }

  lemma TopMatchesAny(path: string, k: string, fields: seq<string>)
    requires J.Within(path, J.AtKey("", k)) && forall name | name in fields :: PlainName(name)
    ensures MatchesAny(path, Below("", fields)) <==> k in fields
  {
    forall name | name in fields
      ensures Matches(path, "" + "/" + name) <==> k == name
    {
      TopMatches(path, k, name);
      assert "" + "/" + name == "/" + name;
    }
    if k in fields {
      BelowHas("", fields, k);
    }
  }

  /** The cluster-level patterns allow the whole of the fields they name. */
  predicate FieldAllowed(k: string, reinstall: bool) {
    k in CLUSTER_FIELDS || (reinstall && k in REINSTALL_CLUSTER_FIELDS)
  }

  lemma TopAllowed(path: string, k: string, reinstall: bool)
    requires J.Within(path, J.AtKey("", k))
    ensures ClusterAllowed(path, reinstall) <==> FieldAllowed(k, reinstall)
    ensures UnderNodes(path) <==> k == "nodes"
  {
    ClusterNames();
    ReinstallNames();
    TopMatchesAny(path, k, CLUSTER_FIELDS);
    TopMatchesAny(path, k, REINSTALL_CLUSTER_FIELDS);
    TopMatches(path, k, "nodes");
    assert NODES == "/" + "nodes";
  }
}
