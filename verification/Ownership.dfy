/** The owned-by label: how an owner is written into it, read back and compared. */
module Ownership {
  import opened Kube
  import opened Text

  function LabelFor(namespace: string, name: string): string {
    namespace + "_" + name
  }

  datatype NamespacedName = NamespacedName(namespace: string, name: string)

  /** Exactly one underscore is expected. */
  function Parse(value: string): Option<NamespacedName> {
    var parts := Split(value, '_');
    if |parts| == 2 then Some(NamespacedName(parts[0], parts[1])) else None
  }

  /** The pieces of a split put together again, and no separator left in them. */
  lemma {:induction false} SplitParts(s: string)
    ensures var parts := Split(s, '_');
            && (forall p | p in parts :: '_' !in p)
            && (|parts| == 2 ==> s == parts[0] + "_" + parts[1])
  {
    if s != "" {
      SplitParts(s[1..]);
      SplitWithout(s[1..], '_');
      var rest := Split(s[1..], '_');
      assert s == [s[0]] + s[1..];
      assert rest[0] in rest;
    }
  }

  /** What is generated for a Kubernetes name is read back; nothing else is accepted. */
  lemma ParseIff(value: string, n: NamespacedName)
    ensures Parse(value) == Some(n) <==>
            value == LabelFor(n.namespace, n.name) && '_' !in n.namespace && '_' !in n.name
  {
    SplitParts(value);
    if value == LabelFor(n.namespace, n.name) && '_' !in n.namespace && '_' !in n.name {
      SplitWithout(n.namespace, '_');
      SplitWithout(n.name, '_');
      SplitConcat(n.namespace, n.name, '_');
      assert n.namespace + ['_'] + n.name == value;
    }
    var parts := Split(value, '_');
    if |parts| == 2 {
      assert parts[0] in parts && parts[1] in parts;
    }
  }

  /** Instances with different names never own each other's objects. */
  lemma OwnersDiffer(a: NamespacedName, b: NamespacedName)
    requires '_' !in a.namespace && '_' !in a.name && '_' !in b.namespace && '_' !in b.name
    requires LabelFor(a.namespace, a.name) == LabelFor(b.namespace, b.name)
    ensures a == b
  {
    ParseIff(LabelFor(a.namespace, a.name), a);
    ParseIff(LabelFor(b.namespace, b.name), b);
  }
}
