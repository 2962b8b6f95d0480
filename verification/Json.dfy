/** JSON documents, and the differences between two of them as the diff library reports them. */
module Json {
  import opened Text
  import Kube

  /** A literal is a number, a boolean or null. */
  datatype Value =
    | Str(text: string)
    | Literal(token: string)
    | Array(items: seq<Value>)
    | Object(fields: Fields)

  type Fields = map<string, Value>

  datatype Change = Add | Remove | Replace
  datatype Operation = Operation(path: string, change: Change)

  /** A key in a JSON Pointer (section 3 of RFC 6901). */
  function Escape(key: string): (e: string)
    ensures '/' !in e
    ensures '/' !in key && '~' !in key ==> e == key
    ensures '~' !in e ==> e == key
  {
    if key == "" then ""
    else (if key[0] == '/' then "~1" else if key[0] == '~' then "~0" else [key[0]]) + Escape(key[1..])
  }

  function AtKey(path: string, key: string): string {
    path + "/" + Escape(key)
  }

  function AtIndex(path: string, i: nat): string {
    path + "/" + FormatInt(i)
  }

  /**
   One of the operations that turn `a` into `b`, both found at `path`. Objects are compared key by key and
   arrays index by index; what only one of them has is added or removed whole, and values of different
   kinds are replaced.
   */
  ghost predicate Reports(path: string, a: Value, b: Value, op: Operation)
    decreases a
  {
    a != b &&
    match (a, b)
    case (Object(f), Object(g)) => exists k | k in f.Keys + g.Keys :: ReportsAt(path, f, g, k, op)
    case (Array(xs), Array(ys)) =>
      || (|ys| < |xs| && op == Operation(AtIndex(path, |ys|), Remove))
      || (|xs| < |ys| && op == Operation(path + "/-", Add))
      || exists i | 0 <= i < |xs| && i < |ys| :: Reports(AtIndex(path, i), xs[i], ys[i], op)
    case _ => op == Operation(path, Replace)
  }

  ghost predicate ReportsAt(path: string, f: Fields, g: Fields, k: string, op: Operation)
    requires k in f.Keys + g.Keys
    decreases Object(f), 0
  {
    if k !in g then op == Operation(AtKey(path, k), Remove)
    else if k !in f then op == Operation(AtKey(path, k), Add)
    else Reports(AtKey(path, k), f[k], g[k], op)
  }

  /** The operations, in any order. */
  method Compare(path: string, a: Value, b: Value) returns (ops: seq<Operation>)
    ensures forall op :: op in ops <==> Reports(path, a, b, op)
    ensures ops == [] <==> a == b
    decreases a, 1
  {
    if a == b {
      return [];
    }
    match (a, b) {
      case (Object(f), Object(g)) => ops := CompareObjects(path, f, g);
      case (Array(xs), Array(ys)) => ops := CompareArrays(path, xs, ys);
      case _ => ops := [Operation(path, Replace)];
    }
    ghost var op := Reported(path, a, b);
    assert op in ops;
  }

  method CompareObjects(path: string, f: Fields, g: Fields) returns (ops: seq<Operation>)
    ensures forall op :: op in ops <==> exists k | k in f.Keys + g.Keys :: ReportsAt(path, f, g, k, op)
    decreases Object(f), 0
  {
    ops := [];
    var keys := f.Keys + g.Keys;
    while keys != {}
      invariant keys <= f.Keys + g.Keys
      invariant forall op :: op in ops <==> exists k | k in f.Keys + g.Keys && k !in keys :: ReportsAt(path, f, g, k, op)
    {
      var k := Kube.AnyOf(keys);
      keys := keys - {k};
      if k !in g {
        ops := ops + [Operation(AtKey(path, k), Remove)];
      } else if k !in f {
        ops := ops + [Operation(AtKey(path, k), Add)];
      } else {
        var more := Compare(AtKey(path, k), f[k], g[k]);
        ops := ops + more;
      }
    }
  }

  method CompareArrays(path: string, xs: seq<Value>, ys: seq<Value>) returns (ops: seq<Operation>)
    ensures forall op :: op in ops <==>
              || (|ys| < |xs| && op == Operation(AtIndex(path, |ys|), Remove))
              || (|xs| < |ys| && op == Operation(path + "/-", Add))
              || exists i | 0 <= i < |xs| && i < |ys| :: Reports(AtIndex(path, i), xs[i], ys[i], op)
    decreases Array(xs), 0
  {
    ops := [];
    var shorter := if |xs| < |ys| then |xs| else |ys|;
    for i := shorter to |xs|
      invariant forall op :: op in ops <==> shorter < i && op == Operation(AtIndex(path, |ys|), Remove)
    {
      ops := ops + [Operation(AtIndex(path, shorter), Remove)];
    }
    for i := 0 to shorter
      invariant forall op :: op in ops <==>
                  || (|ys| < |xs| && op == Operation(AtIndex(path, |ys|), Remove))
                  || exists j | 0 <= j < i :: Reports(AtIndex(path, j), xs[j], ys[j], op)
    {
      var more := Compare(AtIndex(path, i), xs[i], ys[i]);
      ops := ops + more;
    }
    ghost var compared := ops;
    for i := shorter to |ys|
      invariant forall op :: op in ops <==> op in compared || (shorter < i && op == Operation(path + "/-", Add))
    {
      ops := ops + [Operation(path + "/-", Add)];
    }
  }

  /** Whatever differs is reported. */
  lemma {:induction false} Reported(path: string, a: Value, b: Value) returns (op: Operation)
    requires a != b
    ensures Reports(path, a, b, op)
    decreases a
  {
    match (a, b)
    case (Object(f), Object(g)) =>
      var k :| k in f.Keys + g.Keys && !SameAt(f, g, k);
      op := FieldReported(path, f, g, k);
    case (Array(xs), Array(ys)) =>
      if |xs| == |ys| {
        var i :| 0 <= i < |xs| && xs[i] != ys[i];
        op := Reported(AtIndex(path, i), xs[i], ys[i]);
      } else {
        op := if |ys| < |xs| then Operation(AtIndex(path, |ys|), Remove) else Operation(path + "/-", Add);
      }
    case _ => op := Operation(path, Replace);
  }

  lemma FieldReported(path: string, f: Fields, g: Fields, k: string) returns (op: Operation)
    requires k in f.Keys + g.Keys && !SameAt(f, g, k)
    ensures ReportsAt(path, f, g, k, op) && Reports(path, Object(f), Object(g), op)
    decreases Object(f), 0
  {
    if k !in g {
      op := Operation(AtKey(path, k), Remove);
    } else if k !in f {
      op := Operation(AtKey(path, k), Add);
    } else {
      op := Reported(AtKey(path, k), f[k], g[k]);
    }
    assert Object(f).fields != Object(g).fields;
  }

  predicate Within(path: string, top: string) {
    path == top || top + "/" <= path
  }

  /** A difference is reported where it is found, or below. */
  lemma {:induction false} ReportedWithin(path: string, a: Value, b: Value, op: Operation)
    requires Reports(path, a, b, op)
    ensures Within(op.path, path)
    decreases a
  {
    match (a, b)
    case (Object(f), Object(g)) =>
      var k :| k in f.Keys + g.Keys && ReportsAt(path, f, g, k, op);
      FieldReportedWithin(path, f, g, k, op);
    case (Array(xs), Array(ys)) =>
      if i :| 0 <= i < |xs| && i < |ys| && Reports(AtIndex(path, i), xs[i], ys[i], op) {
        ReportedWithin(AtIndex(path, i), xs[i], ys[i], op);
      }
    case _ =>
  }

  lemma FieldReportedWithin(path: string, f: Fields, g: Fields, k: string, op: Operation)
    requires k in f.Keys + g.Keys && ReportsAt(path, f, g, k, op)
    ensures Within(op.path, AtKey(path, k)) && Within(op.path, path)
    decreases Object(f), 0
  {
    if k in f && k in g {
      ReportedWithin(AtKey(path, k), f[k], g[k], op);
    }
  }

  /** At a path itself, values are only ever replaced. */
  lemma ReportedHere(path: string, a: Value, b: Value, op: Operation)
    requires Reports(path, a, b, op) && op.path == path
    ensures op.change == Replace
  {
    match (a, b)
    case (Object(f), Object(g)) =>
      var k :| k in f.Keys + g.Keys && ReportsAt(path, f, g, k, op);
      FieldReportedWithin(path, f, g, k, op);
    case (Array(xs), Array(ys)) =>
      if i :| 0 <= i < |xs| && i < |ys| && Reports(AtIndex(path, i), xs[i], ys[i], op) {
        ReportedWithin(AtIndex(path, i), xs[i], ys[i], op);
      }
    case _ =>
  }

  /** Neither object has the field, or both have it with the same value. */
  predicate SameAt(f: Fields, g: Fields, k: string) {
    (k in f <==> k in g) && (k in f && k in g ==> f[k] == g[k])
  }

  /** A field that does not differ is not reported. */
  lemma SameIsNotReported(path: string, f: Fields, g: Fields, k: string, op: Operation)
    requires k in f.Keys + g.Keys && ReportsAt(path, f, g, k, op)
    ensures !SameAt(f, g, k)
  {
  }

  /** Arrays of one length are compared index by index only; a longer one is appended to, a shorter one cut. */
  lemma ArrayReports(path: string, xs: seq<Value>, ys: seq<Value>, op: Operation)
    requires Reports(path, Array(xs), Array(ys), op)
    requires forall i | 0 <= i < |xs| && i < |ys| :: !Reports(AtIndex(path, i), xs[i], ys[i], op)
    ensures |xs| != |ys|
    ensures |xs| < |ys| ==> op == Operation(path + "/-", Add)
    ensures |ys| < |xs| ==> op == Operation(path + "/" + FormatInt(|ys|), Remove)
  {
  }

  /** A key is written with its slashes and tildes escaped, and nothing else changed. */
  lemma EscapeEach(c: char, rest: string)
    ensures Escape([c] + rest) == (if c == '/' then "~1" else if c == '~' then "~0" else [c]) + Escape(rest)
  {
    assert ([c] + rest)[1..] == rest;
  }
}
