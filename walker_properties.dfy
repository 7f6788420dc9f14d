/** What the walker promises for one schema: the precedence of its rules and the shape of what each gives. */
module WalkerProperties {
  import opened Wrappers
  import opened HurlAst
  import opened OpenApi
  import opened RequestBody

  /** readOnly wins over everything else the schema says. */
  lemma ReadOnlyYieldsNothing(schema: Schema, spec: Spec, depth: nat, settings: SpecBodySettings, fuel: nat)
    requires IsReadOnly(schema)
    ensures SchemaExample(schema, spec, depth, settings, fuel) == Ok(None)
  {
  }

  /** An example is converted as it is: no type, composition or reference is looked at, so no error can arise. */
  lemma ExampleTakesPrecedence(schema: Schema, spec: Spec, depth: nat, settings: SpecBodySettings, fuel: nat)
    requires !IsReadOnly(schema) && schema.example.Some?
    ensures SchemaExample(schema, spec, depth, settings, fuel) == Ok(Some(SerdeToHurlJson(schema.example.value, depth, settings)))
  {
  }

  /** The defaults of the scalar types. */
  lemma ScalarTypeDefaults(schema: Schema, spec: Spec, depth: nat, settings: SpecBodySettings, fuel: nat)
    requires !IsReadOnly(schema) && schema.example.None?
    ensures schema.schemaType == Some(BooleanType) ==> SchemaExample(schema, spec, depth, settings, fuel) == Ok(Some(Boolean(true)))
    ensures schema.schemaType == Some(IntegerType) ==> SchemaExample(schema, spec, depth, settings, fuel) == Ok(Some(Number("3")))
    ensures schema.schemaType == Some(NumberType) ==> SchemaExample(schema, spec, depth, settings, fuel) == Ok(Some(Number("3.3")))
    ensures schema.schemaType == Some(StringType) ==>
              SchemaExample(schema, spec, depth, settings, fuel) == Ok(Some(String(Template("string"))))
  {
  }

  /**
    An array with `items` is a list of at most one element: the items schema's
    value, walked at the same depth; the list is empty exactly when that gives nothing.
   */
  lemma ArrayWithItems(schema: Schema, spec: Spec, depth: nat, settings: SpecBodySettings, fuel: nat)
    requires !IsReadOnly(schema) && schema.example.None?
    requires schema.schemaType == Some(ArrayType) && schema.items.Some?
    ensures var item := ChildExample(schema.items.value, spec, depth, settings, fuel);
            var r := SchemaExample(schema, spec, depth, settings, fuel);
            && (item.Err? ==> r == Err(item.error))
            && (item.Ok? ==>
                  && r.Ok? && r.value.Some? && r.value.value.List?
                  && r.value.value.space0 == Formatted(settings.formatting)
                  && |r.value.value.elements| <= 1
                  && (r.value.value.elements == [] <==> item.value.None?)
                  && (item.value.Some? ==> r.value.value.elements[0].value == item.value.value))
  {
  }

  /** An array without `items` is the empty list with a literal newline, assumed distinct from any `build_json_list_space` result. */
  lemma ArrayWithoutItems(schema: Schema, spec: Spec, depth: nat, settings: SpecBodySettings, fuel: nat)
    requires !IsReadOnly(schema) && schema.example.None?
    requires schema.schemaType == Some(ArrayType) && schema.items.None?
    ensures SchemaExample(schema, spec, depth, settings, fuel) == Ok(Some(List(Fixed("\n"), [])))
    ensures forall f :: Fixed("\n") != BuildJsonListSpace(f)
  {
  }

  /** An object is made of its kept properties, or fails with the first property's error. */
  lemma ObjectFromProperties(schema: Schema, spec: Spec, depth: nat, settings: SpecBodySettings, fuel: nat)
    requires !IsReadOnly(schema) && schema.example.None? && schema.schemaType == Some(ObjectType)
    ensures var props := PropertyElements(schema.properties, spec, depth, settings, fuel);
            SchemaExample(schema, spec, depth, settings, fuel)
              == if props.Err? then Err(props.error) else Ok(Some(Object(Fixed(""), props.value)))
  {
  }

  /**
    Without a type, composition is tried: allOf always gives an object, then
    the first member of oneOf, then the first member of anyOf (same depth);
    this schema's own null fallback is reached only when all three lists are empty.
   */
  lemma CompositionOrder(schema: Schema, spec: Spec, depth: nat, settings: SpecBodySettings, fuel: nat)
    requires !IsReadOnly(schema) && schema.example.None? && schema.schemaType.None?
    ensures var r := SchemaExample(schema, spec, depth, settings, fuel);
            var all := AllOfElements(schema.allOf, spec, depth, settings, fuel);
            && (|schema.allOf| > 0 ==> r == if all.Err? then Err(all.error) else Ok(Some(Object(Fixed(""), all.value))))
            && (|schema.allOf| == 0 && |schema.oneOf| > 0 ==> r == ChildExample(schema.oneOf[0], spec, depth, settings, fuel))
            && (|schema.allOf| == 0 && |schema.oneOf| == 0 && |schema.anyOf| > 0 ==>
                  r == ChildExample(schema.anyOf[0], spec, depth, settings, fuel))
            && (|schema.allOf| == 0 && |schema.oneOf| == 0 && |schema.anyOf| == 0 ==> r == Ok(Some(Null)))
  {
  }

  /** Only the first alternative is ever walked: what follows it does not matter. */
  lemma FirstAlternativeIgnoresRest(members: seq<SchemaRef>, others: seq<SchemaRef>, spec: Spec, depth: nat,
                                    settings: SpecBodySettings, fuel: nat)
    requires |members| > 0
    ensures FirstAlternative(members, spec, depth, settings, fuel) == FirstAlternative([members[0]] + others, spec, depth, settings, fuel)
    ensures FirstAlternative(members, spec, depth, settings, fuel) == ChildExample(members[0], spec, depth, settings, fuel)
  {
  }

  /** Sequencing of two member lists: the first error wins, otherwise the members are joined. */
  function Then(a: Members, b: Members): (r: Members)
  {
    if a.Err? then a else if b.Err? then b else Ok(a.value + b.value)
  }

  /** What one property contributes: its member when its schema gives a value, nothing when it gives none. */
  function Contribution(prop: (string, SchemaRef), spec: Spec, depth: nat, settings: SpecBodySettings, fuel: nat): (r: Members)
  {
    match ChildExample(prop.1, spec, depth + 1, settings, fuel)
    case Err(e) => Err(e)
    case Ok(None) => Ok([])
    case Ok(Some(v)) => Ok([BuildJsonObjectElement(TemplateFromString(prop.0), v, depth, settings.formatting)])
  }

  lemma PropertyElementsSingle(prop: (string, SchemaRef), spec: Spec, depth: nat, settings: SpecBodySettings, fuel: nat)
    ensures PropertyElements([prop], spec, depth, settings, fuel) == Contribution(prop, spec, depth, settings, fuel)
  {
    assert [prop][..0] == [];
    assert PropertyElements([], spec, depth, settings, fuel) == Ok([]);
    var kept: seq<JsonObjectElement> := [];
    assert forall x :: kept + [x] == [x];
  }

  /**
    The members of an object are the contributions of its properties joined
    in declaration order: splitting the property list anywhere splits the result.
   */
  lemma {:induction false} PropertyElementsConcat(p: seq<(string, SchemaRef)>, q: seq<(string, SchemaRef)>, spec: Spec,
                                                  depth: nat, settings: SpecBodySettings, fuel: nat)
    ensures PropertyElements(p + q, spec, depth, settings, fuel)
              == Then(PropertyElements(p, spec, depth, settings, fuel), PropertyElements(q, spec, depth, settings, fuel))
    decreases |q|
  {
    if |q| == 0 {
      assert p + q == p;
      var a := PropertyElements(p, spec, depth, settings, fuel);
      assert a.Ok? ==> a.value + [] == a.value;
    } else {
      var q' := q[..|q| - 1];
      assert (p + q)[..|p + q| - 1] == p + q';
      assert (p + q)[|p + q| - 1] == q[|q| - 1];
      PropertyElementsConcat(p, q', spec, depth, settings, fuel);
      var a := PropertyElements(p, spec, depth, settings, fuel);
      var b := PropertyElements(q', spec, depth, settings, fuel);
      if a.Ok? && b.Ok? {
        forall x: seq<JsonObjectElement> ensures a.value + (b.value + x) == (a.value + b.value) + x {
          assert a.value + (b.value + x) == (a.value + b.value) + x;
        }
      }
    }
  }

  /** No partial result: the object fails exactly when some property's schema fails. */
  lemma {:induction false} PropertyElementsFailIff(props: seq<(string, SchemaRef)>, spec: Spec, depth: nat,
                                                   settings: SpecBodySettings, fuel: nat)
    ensures PropertyElements(props, spec, depth, settings, fuel).Err?
        <==> (exists i :: 0 <= i < |props| && ChildExample(props[i].1, spec, depth + 1, settings, fuel).Err?)
    decreases |props|
  {
    if |props| > 0 {
      var init := props[..|props| - 1];
      PropertyElementsFailIff(init, spec, depth, settings, fuel);
      if exists i :: 0 <= i < |init| && ChildExample(init[i].1, spec, depth + 1, settings, fuel).Err? {
        var i :| 0 <= i < |init| && ChildExample(init[i].1, spec, depth + 1, settings, fuel).Err?;
        assert props[i] == init[i];
      }
      if exists i :: 0 <= i < |props| && ChildExample(props[i].1, spec, depth + 1, settings, fuel).Err? {
        var i :| 0 <= i < |props| && ChildExample(props[i].1, spec, depth + 1, settings, fuel).Err?;
        if i < |init| {
          assert init[i] == props[i];
        }
      }
    }
  }

  lemma AllOfElementsSingle(member: SchemaRef, spec: Spec, depth: nat, settings: SpecBodySettings, fuel: nat)
    ensures var resolved := Resolve(member, spec);
            AllOfElements([member], spec, depth, settings, fuel)
              == if resolved.Err? then Err(Unresolved(resolved.error))
                 else PropertyElements(resolved.value.properties, spec, depth, settings, fuel)
  {
    assert [member][..0] == [];
    assert AllOfElements([], spec, depth, settings, fuel) == Ok([]);
    var acc: seq<JsonObjectElement> := [];
    assert forall x :: acc + x == x;
  }

  /** allOf flattens its members' properties: splitting the member list anywhere splits the result. */
  lemma {:induction false} AllOfElementsConcat(p: seq<SchemaRef>, q: seq<SchemaRef>, spec: Spec, depth: nat,
                                               settings: SpecBodySettings, fuel: nat)
    ensures AllOfElements(p + q, spec, depth, settings, fuel)
              == Then(AllOfElements(p, spec, depth, settings, fuel), AllOfElements(q, spec, depth, settings, fuel))
    decreases |q|
  {
    if |q| == 0 {
      assert p + q == p;
      var a := AllOfElements(p, spec, depth, settings, fuel);
      assert a.Ok? ==> a.value + [] == a.value;
    } else {
      var q' := q[..|q| - 1];
      assert (p + q)[..|p + q| - 1] == p + q';
      assert (p + q)[|p + q| - 1] == q[|q| - 1];
      AllOfElementsConcat(p, q', spec, depth, settings, fuel);
      var a := AllOfElements(p, spec, depth, settings, fuel);
      var b := AllOfElements(q', spec, depth, settings, fuel);
      if a.Ok? && b.Ok? {
        forall x: seq<JsonObjectElement> ensures a.value + (b.value + x) == (a.value + b.value) + x {
          assert a.value + (b.value + x) == (a.value + b.value) + x;
        }
      }
    }
  }
}
