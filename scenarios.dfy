/** Small schemas and what the walker makes of them. */
module Scenarios {
  import opened Wrappers
  import opened HurlAst
  import opened OpenApi
  import opened RequestBody
  import opened WalkerProperties

  function Typed(t: SchemaType): (s: Schema)
  {
    Schema(None, None, Some(t), None, [], [], [], [])
  }

  function Untyped(props: seq<(string, SchemaRef)>, allOf: seq<SchemaRef>, oneOf: seq<SchemaRef>): (s: Schema)
  {
    Schema(None, None, None, None, props, allOf, oneOf, [])
  }

  /** allOf of `{a: string}` and `{b: integer}` is one object with `a` then `b`. */
  lemma AllOfMergesTwoSchemas(spec: Spec, depth: nat, settings: SpecBodySettings, fuel: nat)
    requires fuel >= 1
    ensures var a := Inline(Untyped([("a", Inline(Typed(StringType)))], [], []));
            var b := Inline(Untyped([("b", Inline(Typed(IntegerType)))], [], []));
            SchemaExample(Untyped([], [a, b], []), spec, depth, settings, fuel)
              == Ok(Some(Object(Fixed(""), [
                   BuildJsonObjectElement(Template("a"), String(Template("string")), depth, settings.formatting),
                   BuildJsonObjectElement(Template("b"), Number("3"), depth, settings.formatting)])))
  {
    var a := Inline(Untyped([("a", Inline(Typed(StringType)))], [], []));
    var b := Inline(Untyped([("b", Inline(Typed(IntegerType)))], [], []));
    var f := settings.formatting;
    var ea := BuildJsonObjectElement(Template("a"), String(Template("string")), depth, f);
    var eb := BuildJsonObjectElement(Template("b"), Number("3"), depth, f);
    assert [a, b][..1] == [a];
    assert [a][..0] == [];
    assert [("a", Inline(Typed(StringType)))][..0] == [];
    assert [("b", Inline(Typed(IntegerType)))][..0] == [];
    assert ChildExample(Inline(Typed(StringType)), spec, depth + 1, settings, fuel) == Ok(Some(String(Template("string"))));
    assert ChildExample(Inline(Typed(IntegerType)), spec, depth + 1, settings, fuel) == Ok(Some(Number("3")));
    PropertyElementsSingle(("a", Inline(Typed(StringType))), spec, depth, settings, fuel);
    PropertyElementsSingle(("b", Inline(Typed(IntegerType))), spec, depth, settings, fuel);
    AllOfElementsSingle(a, spec, depth, settings, fuel);
    AllOfElementsSingle(b, spec, depth, settings, fuel);
    AllOfElementsConcat([a], [b], spec, depth, settings, fuel);
    assert [a] + [b] == [a, b];
    assert Contribution(("a", Inline(Typed(StringType))), spec, depth, settings, fuel) == Ok([ea]);
    assert Contribution(("b", Inline(Typed(IntegerType))), spec, depth, settings, fuel) == Ok([eb]);
    assert [ea] + [eb] == [ea, eb];
    assert AllOfElements([a, b], spec, depth, settings, fuel) == Ok([ea, eb]);
  }

  /**
    oneOf of a boolean and a reference to nothing is `true`: the second member
    is never resolved, so its dangling reference raises no error.
   */
  lemma OneOfUsesOnlyTheFirst(spec: Spec, depth: nat, settings: SpecBodySettings, fuel: nat)
    requires fuel >= 1 && "Missing" !in spec.schemas
    ensures SchemaExample(Untyped([], [], [Inline(Typed(BooleanType)), Ref("Missing")]), spec, depth, settings, fuel)
              == Ok(Some(Boolean(true)))
  {
    var members := [Inline(Typed(BooleanType)), Ref("Missing")];
    assert SchemaExample(Typed(BooleanType), spec, depth, settings, fuel - 1) == Ok(Some(Boolean(true)));
    assert ChildExample(members[0], spec, depth, settings, fuel) == Ok(Some(Boolean(true)));
    assert FirstAlternative(members, spec, depth, settings, fuel) == Ok(Some(Boolean(true)));
  }

  /** A property that is readOnly is left out of its object, not written as null. */
  lemma ReadOnlyPropertyOmitted(spec: Spec, depth: nat, settings: SpecBodySettings, fuel: nat)
    requires fuel >= 1
    ensures var hidden := Schema(Some(true), None, Some(StringType), None, [], [], [], []);
            var obj := Schema(None, None, Some(ObjectType), None,
                              [("id", Inline(hidden)), ("n", Inline(Typed(IntegerType)))], [], [], []);
            SchemaExample(obj, spec, depth, settings, fuel)
              == Ok(Some(Object(Fixed(""), [BuildJsonObjectElement(Template("n"), Number("3"), depth, settings.formatting)])))
  {
    var hidden := Schema(Some(true), None, Some(StringType), None, [], [], [], []);
    var props := [("id", Inline(hidden)), ("n", Inline(Typed(IntegerType)))];
    var en := BuildJsonObjectElement(Template("n"), Number("3"), depth, settings.formatting);
    assert props[..1] == [("id", Inline(hidden))];
    assert props[..1][..0] == [];
    assert ChildExample(Inline(hidden), spec, depth + 1, settings, fuel) == Ok(None);
    assert ChildExample(Inline(Typed(IntegerType)), spec, depth + 1, settings, fuel) == Ok(Some(Number("3")));
    PropertyElementsSingle(props[0], spec, depth, settings, fuel);
    PropertyElementsSingle(props[1], spec, depth, settings, fuel);
    PropertyElementsConcat([props[0]], [props[1]], spec, depth, settings, fuel);
    assert [props[0]] + [props[1]] == props;
  }
}
