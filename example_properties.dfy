/**
  `serde_to_hurl_json` keeps the shape of an explicit example.  `ToSerde`
  forgets the whitespace of an output value; converting an example and
  forgetting the whitespace gives the example back, and the whitespace is the
  same throughout (`Decorated`).  These two facts determine the conversion:
  any value with both properties is the converted example.
 */
module ExampleProperties {
  import opened Wrappers
  import SerdeJson
  import opened HurlAst
  import opened RequestBody

  /** An output value read back as a loosely-typed JSON value, its whitespace dropped. */
  function ToSerde(v: JsonValue): (r: SerdeJson.Value)
    decreases v
  {
    match v
    case Null => SerdeJson.Null
    case Boolean(b) => SerdeJson.Bool(b)
    case Number(n) => SerdeJson.Number(n)
    case String(t) => SerdeJson.String(t.text)
    case List(_, es) => SerdeJson.Array(seq(|es|, i requires 0 <= i < |es| => ToSerde(es[i].value)))
    case Object(_, ms) => SerdeJson.Object(seq(|ms|, i requires 0 <= i < |ms| => (ms[i].name.text, ToSerde(ms[i].value))))
  }

  /** Every list and object inside `v` carries the whitespace a conversion at `depth` with `formatting` gives. */
  predicate Decorated(v: JsonValue, depth: nat, formatting: Formatting)
    decreases v
  {
    match v
    case List(space0, es) =>
      && space0 == Formatted(formatting)
      && forall i :: 0 <= i < |es| ==> es[i].layout == ListValueLayout(formatting) && Decorated(es[i].value, depth, formatting)
    case Object(space0, ms) =>
      && space0 == Fixed("")
      && forall i :: 0 <= i < |ms| ==>
           ms[i].layout == ObjectElementLayout(depth, formatting) && Decorated(ms[i].value, depth, formatting)
    case _ => true
  }

  /** Scalars map kind for kind; arrays and objects keep their length, order and keys. */
  lemma {:induction false} SerdeRoundTrip(example: SerdeJson.Value, depth: nat, settings: SpecBodySettings)
    ensures ToSerde(SerdeToHurlJson(example, depth, settings)) == example
    decreases example
  {
    match example
    case Array(arr) =>
      var v := SerdeToHurlJson(example, depth, settings);
      forall i | 0 <= i < |arr| ensures ToSerde(v.elements[i].value) == arr[i] {
        SerdeRoundTrip(arr[i], depth, settings);
      }
      assert ToSerde(v).elements == arr;
    case Object(o) =>
      var v := SerdeToHurlJson(example, depth, settings);
      forall i | 0 <= i < |o| ensures (v.members[i].name.text, ToSerde(v.members[i].value)) == o[i] {
        SerdeRoundTrip(o[i].1, depth, settings);
      }
      assert ToSerde(v).members == o;
    case _ =>
  }

  /** The same depth and options decorate every level of a converted example. */
  lemma {:induction false} SerdeDecorated(example: SerdeJson.Value, depth: nat, settings: SpecBodySettings)
    ensures Decorated(SerdeToHurlJson(example, depth, settings), depth, settings.formatting)
    decreases example
  {
    match example
    case Array(arr) =>
      forall i | 0 <= i < |arr| ensures Decorated(SerdeToHurlJson(arr[i], depth, settings), depth, settings.formatting) {
        SerdeDecorated(arr[i], depth, settings);
      }
    case Object(o) =>
      forall i | 0 <= i < |o| ensures Decorated(SerdeToHurlJson(o[i].1, depth, settings), depth, settings.formatting) {
        SerdeDecorated(o[i].1, depth, settings);
      }
    case _ =>
  }

  /** The two lemmas above characterise the conversion completely. */
  lemma {:induction false} SerdeDeterminedByShape(v: JsonValue, depth: nat, settings: SpecBodySettings)
    requires Decorated(v, depth, settings.formatting)
    ensures SerdeToHurlJson(ToSerde(v), depth, settings) == v
    decreases v
  {
    match v
    case List(space0, es) =>
      forall i | 0 <= i < |es| ensures SerdeToHurlJson(ToSerde(es[i].value), depth, settings) == es[i].value {
        SerdeDeterminedByShape(es[i].value, depth, settings);
      }
      assert SerdeToHurlJson(ToSerde(v), depth, settings).elements == es;
    case Object(space0, ms) =>
      forall i | 0 <= i < |ms| ensures SerdeToHurlJson(ToSerde(ms[i].value), depth, settings) == ms[i].value {
        SerdeDeterminedByShape(ms[i].value, depth, settings);
      }
      assert SerdeToHurlJson(ToSerde(v), depth, settings).members == ms;
    case _ =>
  }
}
