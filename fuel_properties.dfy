/**
  What the nesting bound and reference resolution do to the walker's result:
  more fuel never changes a result that was not `OutOfFuel`; every resolution
  error names a schema that is missing from the document; a schema whose walk
  reaches the same schema again never finishes, whatever the bound, while one
  that names itself only where the walk does not go on still does.
 */
module FuelProperties {
  import opened Wrappers
  import opened OpenApi
  import opened RequestBody
  import opened WalkerProperties

  lemma {:induction false} SchemaExampleFuel(schema: Schema, spec: Spec, depth: nat, settings: SpecBodySettings,
                                             fuel: nat, more: nat)
    requires fuel <= more
    requires SchemaExample(schema, spec, depth, settings, fuel) != Err(OutOfFuel)
    ensures SchemaExample(schema, spec, depth, settings, more) == SchemaExample(schema, spec, depth, settings, fuel)
    decreases fuel, 3, 0
  {
    if !IsReadOnly(schema) && schema.example.None? {
      match schema.schemaType
      case Some(t) =>
        if t == ArrayType && schema.items.Some? {
          ChildExampleFuel(schema.items.value, spec, depth, settings, fuel, more);
        } else if t == ObjectType {
          PropertyElementsFuel(schema.properties, spec, depth, settings, fuel, more);
        }
      case None =>
        if |schema.allOf| > 0 {
          AllOfElementsFuel(schema.allOf, spec, depth, settings, fuel, more);
        } else if |schema.oneOf| > 0 {
          FirstAlternativeFuel(schema.oneOf, spec, depth, settings, fuel, more);
        } else if |schema.anyOf| > 0 {
          FirstAlternativeFuel(schema.anyOf, spec, depth, settings, fuel, more);
        }
    }
  }

  lemma {:induction false} ChildExampleFuel(child: SchemaRef, spec: Spec, depth: nat, settings: SpecBodySettings,
                                            fuel: nat, more: nat)
    requires fuel <= more
    requires ChildExample(child, spec, depth, settings, fuel) != Err(OutOfFuel)
    ensures ChildExample(child, spec, depth, settings, more) == ChildExample(child, spec, depth, settings, fuel)
    decreases fuel, 0, 0
  {
    var resolved := Resolve(child, spec);
    if resolved.Ok? {
      SchemaExampleFuel(resolved.value, spec, depth, settings, fuel - 1, more - 1);
    }
  }

  lemma {:induction false} PropertyElementsFuel(props: seq<(string, SchemaRef)>, spec: Spec, depth: nat,
                                                settings: SpecBodySettings, fuel: nat, more: nat)
    requires fuel <= more
    requires PropertyElements(props, spec, depth, settings, fuel) != Err(OutOfFuel)
    ensures PropertyElements(props, spec, depth, settings, more) == PropertyElements(props, spec, depth, settings, fuel)
    decreases fuel, 1, |props|
  {
    if |props| > 0 {
      var init := props[..|props| - 1];
      PropertyElementsFuel(init, spec, depth, settings, fuel, more);
      if PropertyElements(init, spec, depth, settings, fuel).Ok? {
        ChildExampleFuel(props[|props| - 1].1, spec, depth + 1, settings, fuel, more);
      }
    }
  }

  lemma {:induction false} AllOfElementsFuel(members: seq<SchemaRef>, spec: Spec, depth: nat,
                                             settings: SpecBodySettings, fuel: nat, more: nat)
    requires fuel <= more
    requires AllOfElements(members, spec, depth, settings, fuel) != Err(OutOfFuel)
    ensures AllOfElements(members, spec, depth, settings, more) == AllOfElements(members, spec, depth, settings, fuel)
    decreases fuel, 2, |members|
  {
    if |members| > 0 {
      var init := members[..|members| - 1];
      AllOfElementsFuel(init, spec, depth, settings, fuel, more);
      var resolved := Resolve(members[|members| - 1], spec);
      if AllOfElements(init, spec, depth, settings, fuel).Ok? && resolved.Ok? {
        PropertyElementsFuel(resolved.value.properties, spec, depth, settings, fuel, more);
      }
    }
  }

  lemma {:induction false} FirstAlternativeFuel(members: seq<SchemaRef>, spec: Spec, depth: nat,
                                                settings: SpecBodySettings, fuel: nat, more: nat)
    requires fuel <= more
    requires FirstAlternative(members, spec, depth, settings, fuel) != Err(OutOfFuel)
    ensures FirstAlternative(members, spec, depth, settings, more) == FirstAlternative(members, spec, depth, settings, fuel)
    decreases fuel, 1, 0
  {
    if |members| > 0 {
      ChildExampleFuel(members[0], spec, depth, settings, fuel, more);
    }
  }

  /** A resolution error of the walk names a reference that is not in the document. */
  predicate Dangling<T>(r: Result<T, Error>, spec: Spec)
  {
    r.Err? && r.error.Unresolved? ==> r.error.cause.name !in spec.schemas
  }

  lemma {:induction false} SchemaExampleErrorsDangle(schema: Schema, spec: Spec, depth: nat, settings: SpecBodySettings,
                                                     fuel: nat)
    ensures Dangling(SchemaExample(schema, spec, depth, settings, fuel), spec)
    decreases fuel, 3, 0
  {
    if !IsReadOnly(schema) && schema.example.None? {
      match schema.schemaType
      case Some(t) =>
        if t == ArrayType && schema.items.Some? {
          ChildExampleErrorsDangle(schema.items.value, spec, depth, settings, fuel);
        } else if t == ObjectType {
          PropertyElementsErrorsDangle(schema.properties, spec, depth, settings, fuel);
        }
      case None =>
        if |schema.allOf| > 0 {
          AllOfElementsErrorsDangle(schema.allOf, spec, depth, settings, fuel);
        } else if |schema.oneOf| > 0 {
          FirstAlternativeErrorsDangle(schema.oneOf, spec, depth, settings, fuel);
        } else if |schema.anyOf| > 0 {
          FirstAlternativeErrorsDangle(schema.anyOf, spec, depth, settings, fuel);
        }
    }
  }

  lemma {:induction false} ChildExampleErrorsDangle(child: SchemaRef, spec: Spec, depth: nat, settings: SpecBodySettings,
                                                    fuel: nat)
    ensures Dangling(ChildExample(child, spec, depth, settings, fuel), spec)
    decreases fuel, 0, 0
  {
    var resolved := Resolve(child, spec);
    if resolved.Ok? && fuel > 0 {
      SchemaExampleErrorsDangle(resolved.value, spec, depth, settings, fuel - 1);
    }
  }

  lemma {:induction false} PropertyElementsErrorsDangle(props: seq<(string, SchemaRef)>, spec: Spec, depth: nat,
                                                        settings: SpecBodySettings, fuel: nat)
    ensures Dangling(PropertyElements(props, spec, depth, settings, fuel), spec)
    decreases fuel, 1, |props|
  {
    if |props| > 0 {
      var init := props[..|props| - 1];
      PropertyElementsErrorsDangle(init, spec, depth, settings, fuel);
      ChildExampleErrorsDangle(props[|props| - 1].1, spec, depth + 1, settings, fuel);
    }
  }

  lemma {:induction false} AllOfElementsErrorsDangle(members: seq<SchemaRef>, spec: Spec, depth: nat,
                                                     settings: SpecBodySettings, fuel: nat)
    ensures Dangling(AllOfElements(members, spec, depth, settings, fuel), spec)
    decreases fuel, 2, |members|
  {
    if |members| > 0 {
      var init := members[..|members| - 1];
      AllOfElementsErrorsDangle(init, spec, depth, settings, fuel);
      var resolved := Resolve(members[|members| - 1], spec);
      if resolved.Ok? {
        PropertyElementsErrorsDangle(resolved.value.properties, spec, depth, settings, fuel);
      }
    }
  }

  lemma {:induction false} FirstAlternativeErrorsDangle(members: seq<SchemaRef>, spec: Spec, depth: nat,
                                                        settings: SpecBodySettings, fuel: nat)
    ensures Dangling(FirstAlternative(members, spec, depth, settings, fuel), spec)
    decreases fuel, 1, 0
  {
    if |members| > 0 {
      ChildExampleErrorsDangle(members[0], spec, depth, settings, fuel);
    }
  }

  /** An array type whose `items` refers back to the schema itself. */
  function SelfArray(name: string): (s: Schema)
  {
    Schema(None, None, Some(ArrayType), Some(Ref(name)), [], [], [], [])
  }

  /**
    The source has no cycle guard: walking an array whose items are the array
    itself never reaches a value, however large the nesting bound.
   */
  lemma {:induction false} SelfReferenceNeverFinishes(name: string, spec: Spec, depth: nat, settings: SpecBodySettings,
                                                      fuel: nat)
    requires name in spec.schemas && spec.schemas[name] == SelfArray(name)
    ensures SchemaExample(SelfArray(name), spec, depth, settings, fuel) == Err(OutOfFuel)
  {
    if fuel > 0 {
      SelfReferenceNeverFinishes(name, spec, depth, settings, fuel - 1);
    }
  }

  /** A schema with no type whose only allOf member refers back to it. */
  function SelfAllOf(name: string): (s: Schema)
  {
    Schema(None, None, None, None, [], [Ref(name)], [], [])
  }

  /**
    Not every self-reference loops: allOf reads only its members' properties,
    so a schema whose allOf names itself gives the empty object for every bound.
   */
  lemma SelfAllOfFinishes(name: string, spec: Spec, depth: nat, settings: SpecBodySettings, fuel: nat)
    requires name in spec.schemas && spec.schemas[name] == SelfAllOf(name)
    ensures SchemaExample(SelfAllOf(name), spec, depth, settings, fuel) == Ok(Some(HurlAst.Object(HurlAst.Fixed(""), [])))
  {
    AllOfElementsSingle(Ref(name), spec, depth, settings, fuel);
    assert PropertyElements([], spec, depth, settings, fuel) == Ok([]);
  }
}
