/** What a cluster may do to a submitted Job: add to it, never alter it. */
module Manifests {
  import opened JsonText

  datatype Manifest = Manifest(labels: Json, annotations: Json, spec: Json)

  /** Python's `==` on a scalar: truth values equal the numbers 0 and 1. */
  predicate ScalarEqual(a: Json, b: Json) {
    if (a.JBool? || a.JInt?) && (b.JBool? || b.JInt?) then Number(a) == Number(b) else a == b
  }

  function Number(a: Json): int
    requires a.JBool? || a.JInt?
  {
    if a.JInt? then a.number else if a.flag then 1 else 0
  }

  predicate Contains(actual: Json, expected: Json)
    decreases expected
  {
    match expected
    case JObject(fields) =>
      actual.JObject? && forall k :: k in fields ==> k in actual.fields && Contains(actual.fields[k], fields[k])
    case JArray(items) =>
      actual.JArray? && |actual.items| == |items| && forall i :: 0 <= i < |items| ==> Contains(actual.items[i], items[i])
    case _ => ScalarEqual(actual, expected)
  }

  predicate Fulfils(actual: Manifest, expected: Manifest) {
    && Contains(actual.labels, expected.labels)
    && Contains(actual.annotations, expected.annotations)
    && Contains(actual.spec, expected.spec)
  }

  /** A Job stored exactly as rendered fulfils its contract. */
  lemma {:induction false} ContainsItself(j: Json)
    ensures Contains(j, j)
  {
    match j {
      case JObject(fields) => forall k | k in fields ensures Contains(fields[k], fields[k]) { ContainsItself(fields[k]); }
      case JArray(items) => forall i | 0 <= i < |items| ensures Contains(items[i], items[i]) { ContainsItself(items[i]); }
      case _ =>
    }
  }

  /** Defaults added in several rounds still leave the rendered contract in place. */
  lemma {:induction false} ContainsTransitive(a: Json, b: Json, d: Json)
    requires Contains(a, b) && Contains(b, d)
    ensures Contains(a, d)
    decreases d
  {
    match d {
      case JObject(fields) =>
        forall k | k in fields ensures Contains(a.fields[k], fields[k]) {
          ContainsTransitive(a.fields[k], b.fields[k], fields[k]);
        }
      case JArray(items) =>
        forall i | 0 <= i < |items| ensures Contains(a.items[i], items[i]) {
          ContainsTransitive(a.items[i], b.items[i], items[i]);
        }
      case _ =>
    }
  }

  /** Python's `==` on documents: the same fields and items, all the way down. */
  predicate Agree(a: Json, b: Json)
    decreases b
  {
    match b
    case JObject(fields) =>
      a.JObject? && a.fields.Keys == fields.Keys && forall k :: k in fields ==> k in a.fields && Agree(a.fields[k], fields[k])
    case JArray(items) =>
      a.JArray? && |a.items| == |items| && forall i :: 0 <= i < |items| ==> Agree(a.items[i], items[i])
    case _ => ScalarEqual(a, b)
  }

  /** Additions are all the contract allows: documents that contain each other agree in everything, and only those do. */
  lemma {:induction false} AdditionsOnly(a: Json, b: Json)
    ensures Contains(a, b) && Contains(b, a) <==> Agree(a, b)
    decreases b
  {
    match b {
      case JObject(f) =>
        if a.JObject? {
          forall k | k in f && k in a.fields ensures Contains(a.fields[k], f[k]) && Contains(f[k], a.fields[k]) <==> Agree(a.fields[k], f[k]) {
            AdditionsOnly(a.fields[k], f[k]);
          }
          if Contains(a, b) && Contains(b, a) { assert forall k :: k in a.fields.Keys <==> k in f.Keys; }
        }
      case JArray(items) =>
        if a.JArray? && |a.items| == |items| {
          forall i | 0 <= i < |items| ensures Contains(a.items[i], items[i]) && Contains(items[i], a.items[i]) <==> Agree(a.items[i], items[i]) {
            AdditionsOnly(a.items[i], items[i]);
          }
        }
      case _ =>
    }
  }
}
