/**
 How nodes are matched and what may change in a matched one, said of the fields of a node: its host name
 before its BMC address before its boot MAC address.
 */
module NodeIdentity {
  import opened Kube
  import opened Nodes
  import A = Admission
  import J = Json
  import Paths
  import Text

  /** The text of a field, empty if there is none. */
  function TextOf(n: Node, k: string): string {
    if k in n && n[k].Str? then n[k].text else ""
  }

  predicate Identified(n: Node) {
    TextOf(n, "hostName") != "" || TextOf(n, "bmcAddress") != "" || TextOf(n, "bootMACAddress") != ""
  }

  /** Both are identified by the same field, the first of the three that either has, and it is equal. */
  predicate SameNode(a: Node, b: Node) {
    if TextOf(a, "hostName") != "" || TextOf(b, "hostName") != "" then TextOf(a, "hostName") == TextOf(b, "hostName")
    else if TextOf(a, "bmcAddress") != "" || TextOf(b, "bmcAddress") != "" then TextOf(a, "bmcAddress") == TextOf(b, "bmcAddress")
    else TextOf(a, "bootMACAddress") != "" && TextOf(a, "bootMACAddress") == TextOf(b, "bootMACAddress")
  }

  /** The operator matches two nodes exactly if they are the same by their fields. */
  lemma MatchedIff(a: Node, b: Node)
    ensures NodeKey(a).Some? <==> Identified(a)
    ensures NodeKey(a).Some? && NodeKey(a) == NodeKey(b) <==> SameNode(a, b)
  {
    Prefixed("host:", TextOf(a, "hostName"), TextOf(b, "hostName"));
    Prefixed("bmc:", TextOf(a, "bmcAddress"), TextOf(b, "bmcAddress"));
    Prefixed("mac:", TextOf(a, "bootMACAddress"), TextOf(b, "bootMACAddress"));
    if NodeKey(a).Some? && NodeKey(b).Some? {
      assert NodeKey(a).value[0] == (if TextOf(a, "hostName") != "" then 'h' else if TextOf(a, "bmcAddress") != "" then 'b' else 'm');
      assert NodeKey(b).value[0] == (if TextOf(b, "hostName") != "" then 'h' else if TextOf(b, "bmcAddress") != "" then 'b' else 'm');
    }
  }

  lemma Prefixed(p: string, a: string, b: string)
    ensures p + a == p + b <==> a == b
  {
    if p + a == p + b {
      assert (p + a)[|p|..] == a && (p + b)[|p|..] == b;
    }
  }

  // ----- Updates after provisioning ----------------------------------------------------------

  /** Every node is identified, and no two of them are the same. */
  predicate WellIdentified(ns: seq<Node>) {
    (forall n | n in ns :: Identified(n)) && forall i, j | 0 <= i < j < |ns| :: !SameNode(ns[i], ns[j])
  }

  lemma WellIdentifiedIff(ns: seq<Node>)
    ensures WellIdentified(ns) <==> DistinctKeys(ns)
  {
    forall n | n in ns {
      MatchedIff(n, n);
    }
    if WellIdentified(ns) {
      forall i, j | 0 <= i < j < |ns|
        ensures NodeKey(ns[i]) != NodeKey(ns[j])
      {
        assert ns[i] in ns;
        MatchedIff(ns[i], ns[j]);
      }
    }
    if DistinctKeys(ns) {
      forall i, j | 0 <= i < j < |ns|
        ensures !SameNode(ns[i], ns[j])
      {
        MatchedIff(ns[i], ns[j]);
      }
    }
  }

  ghost predicate OnlyPermitted(a: Node, b: Node, reinstall: bool) {
    forall op | J.Reports("", J.Object(a), J.Object(b), op) :: IsUpgrade(op) || Permissible(op.path, reinstall)
  }

  /** The verdict, with nodes matched by their fields. */
  lemma AcceptedIff(before: A.Spec, after: A.Spec, reinstall: bool)
    requires WellIdentified(before.nodes) && WellIdentified(after.nodes)
    ensures A.PostProvisioning(before, after, reinstall) <==>
            && (forall a, b | a in before.nodes && b in after.nodes && SameNode(a, b) :: OnlyPermitted(a, b, reinstall))
            && A.FieldsAllowed(before, after, reinstall)
  {
    WellIdentifiedIff(before.nodes);
    WellIdentifiedIff(after.nodes);
    A.PostProvisioningIff(before, after, reinstall);
    KeptIff(before.nodes, after.nodes, reinstall);
  }

  lemma KeptIff(olds: seq<Node>, news: seq<Node>, reinstall: bool)
    requires AllKeyed(olds) && AllKeyed(news)
    ensures A.KeptNodesAllowed(olds, news, reinstall) <==>
            forall a, b | a in olds && b in news && SameNode(a, b) :: OnlyPermitted(a, b, reinstall)
  {
    forall a, b | a in olds && b in news
      ensures SameNode(a, b) <==> NodeKey(a) == NodeKey(b)
    {
      MatchedIff(a, b);
    }
  }

  /** A node that is not identified is never accepted. */
  lemma UnidentifiedIsRefused(before: A.Spec, after: A.Spec, reinstall: bool)
    requires exists n | n in before.nodes + after.nodes :: !Identified(n)
    ensures !A.PostProvisioning(before, after, reinstall)
  {
    var n :| n in before.nodes + after.nodes && !Identified(n);
    MatchedIff(n, n);
    UnkeyedIsRefused(before.nodes, after.nodes, reinstall, n);
  }

  lemma UnkeyedIsRefused(olds: seq<Node>, news: seq<Node>, reinstall: bool, n: Node)
    requires (n in olds || n in news) && NodeKey(n).None?
    ensures AnalysisOf(olds, news, reinstall).unauthorized
  {
    if n !in olds && AllKeyed(olds) && |olds| == |news| {
      PureIff(ByKey(olds).Keys, news);
    }
  }

  /** A BMC address or a boot MAC address that differs is a difference of the two nodes at its own path. */
  lemma AddressDiffers(a: Node, b: Node, k: string)
    requires k == "bmcAddress" || k == "bootMACAddress"
    requires TextOf(a, k) != TextOf(b, k)
    ensures !OnlyPermitted(a, b, false)
  {
    IdentifiersAreFixed(false);
    var op := FieldDiffers(a, b, k);
    assert op.path == Top(k) && !Permissible(op.path, false);
    assert Top(k) != Top(CPU);
  }

  /** Without a reinstall, a node that keeps its host name keeps its BMC address and its boot MAC address. */
  lemma KeptHostIsFixed(before: A.Spec, after: A.Spec, a: Node, b: Node)
    requires WellIdentified(before.nodes) && WellIdentified(after.nodes)
    requires a in before.nodes && b in after.nodes
    requires TextOf(a, "hostName") != "" && TextOf(a, "hostName") == TextOf(b, "hostName")
    requires A.PostProvisioning(before, after, false)
    ensures TextOf(a, "bmcAddress") == TextOf(b, "bmcAddress")
    ensures TextOf(a, "bootMACAddress") == TextOf(b, "bootMACAddress")
  {
    AcceptedIff(before, after, false);
    assert SameNode(a, b) && OnlyPermitted(a, b, false);
    if TextOf(a, "bmcAddress") != TextOf(b, "bmcAddress") {
      AddressDiffers(a, b, "bmcAddress");
    }
    if TextOf(a, "bootMACAddress") != TextOf(b, "bootMACAddress") {
      AddressDiffers(a, b, "bootMACAddress");
    }
  }

  // ----- Which fields of a node may change ---------------------------------------------------

  /** The fields that may change at any time. */
  predicate Free(k: string) {
    k == "extraAnnotations" || k == "extraLabels" || k == "suppressedManifests" || k == "pruneManifests"
  }

  /** Those that may change as well when a reinstall is requested. */
  predicate FreeForReinstall(k: string) {
    k == "bmcAddress" || k == "bootMACAddress" || k == "rootDeviceHints" || k == "nodeNetwork/interfaces"
  }

  lemma ContainsPart(front: string, part: string, back: string)
    ensures Text.Contains(front + part + back, part)
  {
    assert part <= (front + part + back)[|front|..];
  }

  /** A difference at one of these fields, or anywhere below it, is permitted. */
  lemma FreeIsPermitted(k: string, below: string, reinstall: bool)
    requires Free(k) || (reinstall && FreeForReinstall(k))
    ensures Permissible("/" + k + below, reinstall)
  {
    FreeIsNamed(k, reinstall);
    ContainsPart("/", k, below);
  }

  lemma FreeIsNamed(k: string, reinstall: bool)
    ensures k in PermissibleFields(reinstall) <==> Free(k) || (reinstall && FreeForReinstall(k))
  {
    var more := if reinstall then REINSTALL_FIELDS else [];
    assert k in PermissibleFields(reinstall) <==> k in BASE_FIELDS || k in more;
  }

  /** Nothing else is: a permitted path has one of these names in it. */
  lemma PermittedHasFree(path: string, reinstall: bool)
    requires Permissible(path, reinstall)
    ensures exists k :: (Free(k) || (reinstall && FreeForReinstall(k))) && Text.Contains(path, k)
  {
    var k :| k in PermissibleFields(reinstall) && Text.Contains(path, k);
    FreeIsNamed(k, reinstall);
  }

  /** The one field of a node that may appear or vanish at any time, but not change. */
  lemma UpgradeFieldIs(op: J.Operation)
    ensures IsUpgrade(op) <==> op.path == "/" + "cpuArchitecture" && (op.change == J.Add || op.change == J.Remove)
  {
  }

  /** The top-level fields of a spec that may change. */
  lemma NamedFields(k: string, reinstall: bool)
    ensures Paths.FieldAllowed(k, reinstall) <==>
            || k == "extraAnnotations" || k == "extraLabels" || k == "suppressedManifests" || k == "pruneManifests"
            || k == "clusterImageSetNameRef" || k == "holdInstallation" || (reinstall && k == "reinstall")
  {
  }

  /** How the hold and the request are written: under their own names, and not at all when they are not set. */
  lemma OtherFields(s: A.Spec)
    requires A.Separate(s)
    ensures var f := A.Others(s);
            && (if s.hold then "holdInstallation" in f && f["holdInstallation"] == J.Literal("true") else "holdInstallation" !in f)
            && ("reinstall" in f <==> s.reinstall.Some?)
            && (forall k | k != "holdInstallation" && k != "reinstall" :: k in f <==> k in s.rest)
            && (forall k | k in s.rest :: k in f && f[k] == s.rest[k])
  {
  }
}
