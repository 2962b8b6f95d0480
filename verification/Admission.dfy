/**
 Admission of spec updates: the permission level, the checks of a reinstall request and the check of
 every changed field. A spec is its nodes, the two fields the levels depend on, and all other fields.
 */
module Admission {
  import opened Kube
  import opened Conditions
  import opened Paths
  import opened Nodes
  import J = Json
  import opened Reinstall
  import P = Preservation

  datatype Spec = Spec(hold: bool, reinstall: Option<Request>, nodes: seq<Node>, rest: J.Fields)

  /** What the webhook reads of an instance; `provisioned` is the reason of that condition. */
  datatype Instance = Instance(
    spec: Spec,
    provisioned: Option<Reason>,
    reinstall: Option<ReinstallStatus>,
    deleting: bool)

  const HOLD := "holdInstallation"
  const REINSTALL := "reinstall"

  function RequestValue(r: Request): J.Value {
    J.Object(map["generation" := J.Str(r.generation), "preservationMode" := J.Str(P.ModeName(r.mode))])
  }

  /** Every field but the nodes. */
  function Others(s: Spec): J.Fields {
    s.rest
    + (if s.hold then map[HOLD := J.Literal("true")] else map[])
    + (if s.reinstall.Some? then map[REINSTALL := RequestValue(s.reinstall.value)] else map[])
  }

  /** The spec as it is written to JSON. */
  function Document(s: Spec): J.Value {
    J.Object(Others(s)["nodes" := J.Array(seq(|s.nodes|, i requires 0 <= i < |s.nodes| => J.Object(s.nodes[i])))])
  }

  /** The other fields are neither the nodes nor one of the fields shown apart. */
  predicate Separate(s: Spec) {
    "nodes" !in s.rest && HOLD !in s.rest && REINSTALL !in s.rest
  }

  // ----- Changed fields ----------------------------------------------------------------------

  predicate OperationAllowed(op: J.Operation, reinstall: bool, scaling: bool, permitted: bool) {
    || MatchesAny(op.path, AllowedPaths(reinstall))
    || (scaling && UnderNodes(op.path))
    || (permitted && (UnderNodes(op.path) || Matches(op.path, "/nodes/*")))
    || (if Matches(op.path, "/nodes/*") then !op.change.Replace? else IsUpgrade(op))
  }

  method JudgeOperation(op: J.Operation, allowedUpdates: seq<string>, reinstall: bool, scaling: bool, permitted: bool)
    returns (ok: bool)
    requires allowedUpdates == AllowedPaths(reinstall)
    ensures ok <==> OperationAllowed(op, reinstall, scaling, permitted)
  {
    var allowed := PathMatchesAnyPattern(op.path, allowedUpdates);
    if allowed {
      return true;
    }
    var underNodes := PathMatchesPattern(op.path, NODES);
    if scaling && underNodes {
      return true;
    }
    var isNode := PathMatchesPattern(op.path, "/nodes/*");
    if permitted && (underNodes || isNode) {
      return true;
    }
    if isNode {
      return !op.change.Replace?;
    }
    return IsUpgrade(op);
  }

  method ValidateChangesWithJSONDiff(before: Spec, after: Spec, reinstall: bool, analysis: Analysis) returns (ok: bool)
    ensures var scaling, permitted := |before.nodes| != |after.nodes|, analysis.operation != Invalid && !analysis.unauthorized;
            ok <==> forall op | J.Reports("", Document(before), Document(after), op) ::
                      OperationAllowed(op, reinstall, scaling, permitted)
  {
    var ops := J.Compare("", Document(before), Document(after));
    var scaling := |before.nodes| != |after.nodes|;
    var permitted := analysis.operation != Invalid && !analysis.unauthorized;
    ok := JudgeAll(ops, reinstall, scaling, permitted);
    JudgedIff(ops, Document(before), Document(after), reinstall, scaling, permitted);
  }

  predicate AllAllowed(ops: seq<J.Operation>, reinstall: bool, scaling: bool, permitted: bool) {
    ops == [] || (OperationAllowed(ops[0], reinstall, scaling, permitted) && AllAllowed(ops[1..], reinstall, scaling, permitted))
  }

  lemma {:induction false} AllAllowedIff(ops: seq<J.Operation>, reinstall: bool, scaling: bool, permitted: bool)
    ensures AllAllowed(ops, reinstall, scaling, permitted) <==>
            forall op | op in ops :: OperationAllowed(op, reinstall, scaling, permitted)
  {
    if ops != [] {
      AllAllowedIff(ops[1..], reinstall, scaling, permitted);
      assert ops[0] in ops;
      assert forall op :: op in ops <==> op == ops[0] || op in ops[1..];
    }
  }

  lemma JudgedIff(ops: seq<J.Operation>, a: J.Value, b: J.Value, reinstall: bool, scaling: bool, permitted: bool)
    requires forall op :: op in ops <==> J.Reports("", a, b, op)
    ensures AllAllowed(ops, reinstall, scaling, permitted) <==>
            forall op | J.Reports("", a, b, op) :: OperationAllowed(op, reinstall, scaling, permitted)
  {
    AllAllowedIff(ops, reinstall, scaling, permitted);
  }

  method JudgeAll(ops: seq<J.Operation>, reinstall: bool, scaling: bool, permitted: bool) returns (ok: bool)
    ensures ok == AllAllowed(ops, reinstall, scaling, permitted)
  {
    var allowedUpdates := AllowedPaths(reinstall);
    var restricted: seq<string> := [];
    for i := 0 to |ops|
      invariant (restricted == [] && AllAllowed(ops[i..], reinstall, scaling, permitted)) ==
                AllAllowed(ops, reinstall, scaling, permitted)
    {
      assert ops[i..][1..] == ops[i + 1..];
      var allowed := JudgeOperation(ops[i], allowedUpdates, reinstall, scaling, permitted);
      if !allowed {
        restricted := restricted + [ops[i].path];
      }
    }
    ok := restricted == [];
  }

  /**
   Of the fields other than the nodes, those not named for this kind of update are as they were; only the
   architecture may appear or vanish.
   */
  ghost predicate FieldsAllowed(before: Spec, after: Spec, reinstall: bool) {
    var f, g := Others(before), Others(after);
    forall k | k in f.Keys + g.Keys && !J.SameAt(f, g, k) ::
      FieldAllowed(k, reinstall) || (k == CPU && !(k in f && k in g))
  }

  ghost predicate PostProvisioning(before: Spec, after: Spec, reinstall: bool) {
    !AnalysisOf(before.nodes, after.nodes, reinstall).unauthorized && FieldsAllowed(before, after, reinstall)
  }

  lemma ValidAnalysis(olds: seq<Node>, news: seq<Node>, reinstall: bool)
    ensures var a := AnalysisOf(olds, news, reinstall); a.operation == Invalid ==> a.unauthorized
  {
  }

  lemma NodesPrefix(path: string)
    requires !UnderNodes(path)
    ensures !Matches(path, "/nodes/*")
  {
    if Matches(path, "/nodes/*") {
      assert "/nodes/*" == NODES + "/" + "*";
      MatchesPrefix(path, NODES, "*");
    }
  }

  /** A difference in a top-level field is judged by the field: below the nodes all are passed, the analysis having judged them. */
  lemma FieldJudged(f: J.Fields, g: J.Fields, k: string, op: J.Operation, reinstall: bool, scaling: bool)
    requires k in f.Keys + g.Keys && J.ReportsAt("", f, g, k, op)
    ensures OperationAllowed(op, reinstall, scaling, true) <==>
            k == "nodes" || FieldAllowed(k, reinstall) || (k == CPU && !(k in f && k in g))
  {
    J.FieldReportedWithin("", f, g, k, op);
    TopAllowed(op.path, k, reinstall);
    UpgradeIff(f, g, k, op);
    if k != "nodes" {
      AllowedOffNodes(op.path, reinstall);
      NodesPrefix(op.path);
    }
  }

  lemma UpgradeIff(f: J.Fields, g: J.Fields, k: string, op: J.Operation)
    requires k in f.Keys + g.Keys && J.ReportsAt("", f, g, k, op)
    ensures IsUpgrade(op) <==> k == CPU && !(k in f && k in g)
  {
    AtTopIff(f, g, k, op, CPU);
  }

  /** A field is added or removed at its own path exactly if only one side has it. */
  lemma AtTopIff(f: J.Fields, g: J.Fields, k: string, op: J.Operation, name: string)
    requires k in f.Keys + g.Keys && J.ReportsAt("", f, g, k, op) && PlainName(name)
    ensures op.path == Top(name) && !op.change.Replace? <==> k == name && !(k in f && k in g)
  {
    if op.path == Top(name) {
      J.FieldReportedWithin("", f, g, k, op);
      TopIsOne(op.path, k, name);
      OnlyReplaced(f, g, k, op);
    }
  }

  lemma OnlyReplaced(f: J.Fields, g: J.Fields, k: string, op: J.Operation)
    requires k in f.Keys + g.Keys && J.ReportsAt("", f, g, k, op) && op.path == J.AtKey("", k)
    ensures op.change.Replace? <==> k in f && k in g
  {
    if k in f && k in g {
      J.ReportedHere(op.path, f[k], g[k], op);
    }
  }

  /** A permitted analysis leaves the other fields to decide. */
  lemma FieldsDecide(before: Spec, after: Spec, reinstall: bool, scaling: bool)
    requires Separate(before) && Separate(after)
    ensures (forall op | J.Reports("", Document(before), Document(after), op) :: OperationAllowed(op, reinstall, scaling, true))
            <==> FieldsAllowed(before, after, reinstall)
  {
    if FieldsAllowed(before, after, reinstall) {
      forall op | J.Reports("", Document(before), Document(after), op)
        ensures OperationAllowed(op, reinstall, scaling, true)
      {
        AllowedIsPassed(before, after, op, reinstall, scaling);
      }
    }
    if forall op | J.Reports("", Document(before), Document(after), op) :: OperationAllowed(op, reinstall, scaling, true) {
      var f, g := Others(before), Others(after);
      forall k | k in f.Keys + g.Keys && !J.SameAt(f, g, k)
        ensures FieldAllowed(k, reinstall) || (k == CPU && !(k in f && k in g))
      {
        var op := ChangeIsJudged(before, after, k, reinstall, scaling);
      }
    }
  }

  lemma DocumentFields(s: Spec, k: string)
    requires Separate(s)
    ensures "nodes" in Document(s).fields && "nodes" !in Others(s)
    ensures k != "nodes" ==> (k in Document(s).fields <==> k in Others(s))
    ensures k != "nodes" && k in Others(s) ==> Document(s).fields[k] == Others(s)[k]
  {
  }

  lemma AllowedIsPassed(before: Spec, after: Spec, op: J.Operation, reinstall: bool, scaling: bool)
    requires Separate(before) && Separate(after) && FieldsAllowed(before, after, reinstall)
    requires J.Reports("", Document(before), Document(after), op)
    ensures OperationAllowed(op, reinstall, scaling, true)
  {
    var f, g := Document(before).fields, Document(after).fields;
    var k :| k in f.Keys + g.Keys && J.ReportsAt("", f, g, k, op);
    J.SameIsNotReported("", f, g, k, op);
    DocumentFields(before, k);
    DocumentFields(after, k);
    FieldJudged(f, g, k, op, reinstall, scaling);
  }

  lemma ChangeIsJudged(before: Spec, after: Spec, k: string, reinstall: bool, scaling: bool) returns (op: J.Operation)
    requires Separate(before) && Separate(after)
    requires k in Others(before).Keys + Others(after).Keys && !J.SameAt(Others(before), Others(after), k)
    ensures J.Reports("", Document(before), Document(after), op)
    ensures OperationAllowed(op, reinstall, scaling, true) <==>
            FieldAllowed(k, reinstall) || (k == CPU && !(k in Others(before) && k in Others(after)))
  {
    var f, g := Document(before).fields, Document(after).fields;
    DocumentFields(before, k);
    DocumentFields(after, k);
    op := J.FieldReported("", f, g, k);
    FieldJudged(f, g, k, op, reinstall, scaling);
  }

  /** validatePostProvisioningChanges, proved to come down to the analysis and the names of the changed fields. */
  method ValidatePostProvisioningChanges(before: Spec, after: Spec, reinstall: bool) returns (ok: bool)
    requires Separate(before) && Separate(after)
    ensures ok <==> PostProvisioning(before, after, reinstall)
  {
    var analysis := AnalyzeNodeChanges(before.nodes, after.nodes, reinstall);
    if analysis.unauthorized {
      return false;
    }
    ValidAnalysis(before.nodes, after.nodes, reinstall);
    ok := ValidateChangesWithJSONDiff(before, after, reinstall, analysis);
    FieldsDecide(before, after, reinstall, |before.nodes| != |after.nodes|);
  }

  /** A node that keeps its key differs from its old self on permitted paths only. */
  ghost predicate KeptNodesAllowed(olds: seq<Node>, news: seq<Node>, reinstall: bool) {
    forall a, b, op | a in olds && b in news && NodeKey(a) == NodeKey(b) && J.Reports("", J.Object(a), J.Object(b), op) ::
      IsUpgrade(op) || Permissible(op.path, reinstall)
  }

  lemma KeptNodesIff(olds: seq<Node>, news: seq<Node>, reinstall: bool)
    requires DistinctKeys(olds) && DistinctKeys(news)
    ensures MatchesAuthorized(olds, news, reinstall) <==> KeptNodesAllowed(olds, news, reinstall)
  {
    forall a, b | a in olds && b in news && NodeKey(a) == NodeKey(b)
      ensures NodeKey(b).value in ByKey(olds) && ByKey(olds)[NodeKey(b).value] == a
    {
      ByKeyOf(olds, a);
    }
    forall b | b in news && NodeKey(b).value in ByKey(olds)
      ensures ByKey(olds)[NodeKey(b).value] in olds && NodeKey(ByKey(olds)[NodeKey(b).value]) == NodeKey(b)
    {
      ByKeyIff(olds, NodeKey(b).value);
    }
    forall a, b | a in olds && b in news && NodeKey(a) == NodeKey(b) {
      AuthorizedIff(a, b, reinstall);
    }
  }

  /**
   With distinct keys, an update after provisioning is accepted exactly when every node has an identifier,
   every node that keeps its key differs on permitted paths only, and no other field changes but those named.
   */
  lemma PostProvisioningIff(before: Spec, after: Spec, reinstall: bool)
    requires NoSharedKeys(before.nodes) && NoSharedKeys(after.nodes)
    ensures PostProvisioning(before, after, reinstall) <==>
            && AllKeyed(before.nodes) && AllKeyed(after.nodes)
            && KeptNodesAllowed(before.nodes, after.nodes, reinstall)
            && FieldsAllowed(before, after, reinstall)
  {
    AnalysisIff(before.nodes, after.nodes, reinstall);
    if AllKeyed(before.nodes) && AllKeyed(after.nodes) {
      KeptNodesIff(before.nodes, after.nodes, reinstall);
    }
  }

  /** Listing the nodes in another order never changes the verdict. */
  lemma NodeOrderDoesNotMatter(before: Spec, after: Spec, olds: seq<Node>, news: seq<Node>, reinstall: bool)
    requires NoSharedKeys(before.nodes) && NoSharedKeys(after.nodes) && NoSharedKeys(olds) && NoSharedKeys(news)
    requires multiset(before.nodes) == multiset(olds) && multiset(after.nodes) == multiset(news)
    ensures PostProvisioning(before, after, reinstall) <==>
            PostProvisioning(before.(nodes := olds), after.(nodes := news), reinstall)
  {
    var before', after' := before.(nodes := olds), after.(nodes := news);
    PostProvisioningIff(before, after, reinstall);
    PostProvisioningIff(before', after', reinstall);
    SameMembers(before.nodes, olds);
    SameMembers(after.nodes, news);
    assert Others(before) == Others(before') && Others(after) == Others(after');
  }

  // ----- Permission levels -------------------------------------------------------------------

  datatype Permission = Blocked | Unrestricted | BaseOnly | ForReinstall

  predicate ReinstallInProgress(i: Instance) {
    && i.spec.reinstall.Some? && i.reinstall.Some?
    && i.reinstall.value.inProgress == i.spec.reinstall.value.generation && i.reinstall.value.end.None?
  }

  predicate ReinstallRequested(i: Instance) {
    i.spec.reinstall.Some? &&
    (i.reinstall.None? || (!ReinstallInProgress(i) && i.reinstall.value.observed != i.spec.reinstall.value.generation))
  }

  function PermissionFor(before: Instance, after: Instance): Permission {
    if before.spec.hold && after.provisioned != Some(Completed) then Unrestricted
    else if after.provisioned == Some(InProgress) || ReinstallInProgress(after) then Blocked
    else if after.provisioned == Some(Completed) then (if ReinstallRequested(after) then ForReinstall else BaseOnly)
    else Blocked
  }

  const MAX_GENERATION := 253 - 100

  predicate NameChar(c: char) {
    'a' <= c <= 'z' || '0' <= c <= '9'
  }

  /** A name of at most 153 lower-case letters, digits and inner hyphens. */
  predicate ValidGeneration(g: string) {
    && 0 < |g| <= MAX_GENERATION
    && NameChar(g[0]) && NameChar(g[|g| - 1])
    && forall i | 0 <= i < |g| :: NameChar(g[i]) || g[i] == '-'
  }

  /** validateReinstallRequest without an error. */
  predicate RequestValid(i: Instance) {
    && i.spec.reinstall.Some? && i.provisioned == Some(Completed)
    && var g := i.spec.reinstall.value.generation;
       && ValidGeneration(g)
       && (i.reinstall.Some? ==>
             var s := i.reinstall.value;
             && !ReinstallInProgress(i)
             && !(s.inProgress != "" && s.end.None?)
             && s.observed != g
             && !InHistory(s.history, g))
  }

  method ValidateReinstallRequest(i: Instance) returns (ok: bool)
    ensures ok <==> RequestValid(i)
  {
    if i.spec.reinstall.None? || i.provisioned != Some(Completed) {
      return false;
    }
    var g := i.spec.reinstall.value.generation;
    if !ValidGeneration(g) {
      return false;
    }
    if i.reinstall.None? {
      return true;
    }
    var s := i.reinstall.value;
    if ReinstallInProgress(i) || (s.inProgress != "" && s.end.None?) || s.observed == g {
      return false;
    }
    for n := 0 to |s.history|
      invariant forall k | 0 <= k < n :: s.history[k].generation != g
    {
      if s.history[n].generation == g {
        return false;
      }
    }
    return true;
  }

  // ----- The webhook -------------------------------------------------------------------------

  /** `valid` stands for the checks of the new spec alone. */
  ghost predicate UpdateAdmitted(before: Instance, after: Instance, valid: bool) {
    || after.deleting
    || (&& (before.spec.hold || !after.spec.hold)
        && match PermissionFor(before, after)
           case Blocked => after.spec == before.spec
           case Unrestricted => valid
           case BaseOnly => valid && PostProvisioning(before.spec, after.spec, false)
           case ForReinstall => valid && RequestValid(after) && PostProvisioning(before.spec, after.spec, true))
  }

  method ValidateUpdate(before: Instance, after: Instance, valid: bool) returns (ok: bool)
    requires Separate(before.spec) && Separate(after.spec)
    ensures ok <==> UpdateAdmitted(before, after, valid)
  {
    if after.deleting {
      return true;
    }
    if !before.spec.hold && after.spec.hold {
      return false;
    }
    var permission := PermissionFor(before, after);
    if permission == Blocked {
      return after.spec == before.spec;
    }
    if permission == Unrestricted {
      return valid;
    }
    if after.provisioned == Some(Completed) {
      var reinstallRequested := permission == ForReinstall;
      if reinstallRequested {
        var requestOk := ValidateReinstallRequest(after);
        if !requestOk {
          return false;
        }
      }
      ok := ValidatePostProvisioningChanges(before.spec, after.spec, reinstallRequested);
      if !ok {
        return false;
      }
    }
    return valid;
  }

  // ----- What an admitted update can do ------------------------------------------------------

  lemma ModeNames(a: P.Mode, b: P.Mode)
    ensures P.ModeName(a) == P.ModeName(b) <==> a == b
  {
    assert |P.ModeName(P.NoPreservation)| == 4 && |P.ModeName(P.All)| == 3 && |P.ModeName(P.ClusterIdentity)| == 15
        && |P.ModeName(P.Internal)| == 8;
  }

  /** A base-only update keeps the reinstall request. */
  lemma BaseOnlyKeepsRequest(before: Spec, after: Spec)
    requires Separate(before) && Separate(after) && FieldsAllowed(before, after, false)
    ensures after.reinstall == before.reinstall
  {
    assert J.SameAt(Others(before), Others(after), REINSTALL);
    if before.reinstall.Some? {
      assert RequestValue(before.reinstall.value).fields["generation"] == RequestValue(after.reinstall.value).fields["generation"];
      assert RequestValue(before.reinstall.value).fields["preservationMode"]
          == RequestValue(after.reinstall.value).fields["preservationMode"];
      ModeNames(before.reinstall.value.mode, after.reinstall.value.mode);
    }
  }

  /**
   While a reinstall is active, the installation not held and the instance not being deleted, an update is
   admitted only if it leaves the whole spec as it is.
   */
  lemma ActiveReinstallFreezesSpec(before: Instance, after: Instance, valid: bool)
    requires Separate(before.spec) && Separate(after.spec)
    requires before.spec.reinstall.Some? && after.reinstall.Some?
    requires after.reinstall.value.inProgress == before.spec.reinstall.value.generation && after.reinstall.value.end.None?
    requires before.spec.reinstall.value.generation != ""
    requires !before.spec.hold && !after.deleting
    requires UpdateAdmitted(before, after, valid)
    ensures after.spec == before.spec
  {
    if PermissionFor(before, after) == BaseOnly {
      BaseOnlyKeepsRequest(before.spec, after.spec);
    }
  }

  /** With the installation not held, a generation is admitted only if it is well formed, unused and nothing is active. */
  lemma NewGenerationIsFresh(before: Instance, after: Instance, valid: bool)
    requires Separate(before.spec) && Separate(after.spec) && !before.spec.hold && !after.deleting
    requires UpdateAdmitted(before, after, valid) && after.spec.reinstall != before.spec.reinstall
    ensures after.spec.reinstall.Some? && ValidGeneration(after.spec.reinstall.value.generation)
    ensures after.provisioned == Some(Completed)
    ensures after.reinstall.Some? ==>
              var s, g := after.reinstall.value, after.spec.reinstall.value.generation;
              s.observed != g && !InHistory(s.history, g) && (s.inProgress == "" || s.end.Some?)
  {
    if PermissionFor(before, after) == BaseOnly {
      BaseOnlyKeepsRequest(before.spec, after.spec);
    }
  }
}
