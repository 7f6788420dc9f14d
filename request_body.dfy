/**
  The request-body generator: from an OpenAPI schema it builds a
  representative JSON value for a Hurl request body.

  The functions are the meaning of the generator, written over values; the
  methods are the generator as the Rust code runs it, with its loops and
  early returns, each proved to compute its function.

  The Rust walker has no cycle guard: on a schema whose walk reaches the same
  schema again it recurses until the stack overflows.  Here every nested walk spends one
  unit of `fuel`; a nested walk needed when none is left gives `OutOfFuel`.
  `FuelProperties` shows that every other result does not depend on the fuel.
 */
module RequestBody {
  import opened Wrappers
  import SerdeJson
  import opened HurlAst
  import opened OpenApi

  /** The settings the generator reads: only the formatting options. */
  datatype SpecBodySettings = SpecBodySettings(formatting: Formatting)

  datatype Error =
    | Unresolved(cause: RefError) // a reference that names no schema of the document
    | OutOfFuel                   // the nesting bound was reached; on a cyclic schema the source recurses without end

  /** What the walker gives for one schema: maybe a value, or an error. */
  type Outcome = Result<Option<JsonValue>, Error>

  /** What a sequence of object members gives. */
  type Members = Result<seq<JsonObjectElement>, Error>

  /** `read_only.unwrap_or(false)` */
  predicate IsReadOnly(schema: Schema)
  {
    schema.readOnly == Some(true)
  }

  /** What a declared `type` gives before looking at `items` or `properties`. */
  datatype SimpleJsonValue = Scalar(value: JsonValue) | ArrayDefault | ObjectDefault

  function DefaultJsonValueFromSchemaType(t: SchemaType): (r: SimpleJsonValue)
    ensures r == ArrayDefault <==> t == ArrayType
    ensures r == ObjectDefault <==> t == ObjectType
    ensures r.Scalar? ==> !r.value.List? && !r.value.Object? && !r.value.Null?
    ensures r.Scalar? ==> (r.value.Number? <==> t == IntegerType || t == NumberType)
  {
    match t
    case BooleanType => Scalar(Boolean(true))
    case IntegerType => Scalar(Number("3"))
    case NumberType => Scalar(Number("3.3"))
    case StringType => Scalar(String(TemplateFromString("string")))
    case ArrayType => ArrayDefault
    case ObjectType => ObjectDefault
  }

  /** Turns an explicit example into an output value, keeping its shape; `depth` is handed down unchanged. */
  function SerdeToHurlJson(value: SerdeJson.Value, depth: nat, settings: SpecBodySettings): (r: JsonValue)
    ensures value.Null? <==> r.Null?
    ensures value.Bool? <==> r.Boolean?
    ensures value.Bool? ==> r.b == value.b
    ensures value.Number? <==> r.Number?
    ensures value.Number? ==> r.text == value.text
    ensures value.String? <==> r.String?
    ensures value.String? ==> r.template.text == value.s
    ensures value.Array? <==> r.List?
    ensures value.Array? ==> |r.elements| == |value.elements|
    ensures value.Object? <==> r.Object?
    ensures value.Object? ==> |r.members| == |value.members|
    ensures value.Object? ==> forall i :: 0 <= i < |r.members| ==>
              r.members[i].name.text == value.members[i].0 && r.members[i].layout.depth == depth
    decreases value
  {
    match value
    case Null => Null
    case Bool(b) => Boolean(b)
    case Number(n) => Number(n)
    case String(s) => String(TemplateFromString(s))
    case Array(arr) =>
      List(BuildJsonListSpace(settings.formatting),
           seq(|arr|, i requires 0 <= i < |arr| =>
             BuildJsonListValue(SerdeToHurlJson(arr[i], depth, settings), settings.formatting)))
    case Object(o) =>
      Object(Fixed(""),
             seq(|o|, i requires 0 <= i < |o| =>
               BuildJsonObjectElement(TemplateFromString(o[i].0), SerdeToHurlJson(o[i].1, depth, settings),
                                      depth, settings.formatting)))
  }

  /**
    `parse_json_from_schema`: readOnly gives nothing; an example is converted
    as it is; a type gives its default (arrays and objects walk their
    children); otherwise allOf, oneOf, anyOf are tried in that order; the
    fallback is null.
   */
  function SchemaExample(schema: Schema, spec: Spec, depth: nat, settings: SpecBodySettings, fuel: nat): (r: Outcome)
    decreases fuel, 3, 0
  {
    if IsReadOnly(schema) then Ok(None)
    else if schema.example.Some? then Ok(Some(SerdeToHurlJson(schema.example.value, depth, settings)))
    else match schema.schemaType
      case Some(t) =>
        (match DefaultJsonValueFromSchemaType(t)
         case Scalar(v) => Ok(Some(v))
         case ArrayDefault =>
           (match schema.items
            case Some(items) =>
              (match ChildExample(items, spec, depth, settings, fuel)
               case Err(e) => Err(e)
               case Ok(item) =>
                 Ok(Some(List(BuildJsonListSpace(settings.formatting),
                              if item.Some? then [BuildJsonListValue(item.value, settings.formatting)] else []))))
            case None => Ok(Some(List(Fixed("\n"), []))))
         case ObjectDefault =>
           (match PropertyElements(schema.properties, spec, depth, settings, fuel)
            case Err(e) => Err(e)
            case Ok(props) => Ok(Some(Object(Fixed(""), props)))))
      case None =>
        if |schema.allOf| > 0 then
          (match AllOfElements(schema.allOf, spec, depth, settings, fuel)
           case Err(e) => Err(e)
           case Ok(props) => Ok(Some(Object(Fixed(""), props))))
        else if |schema.oneOf| > 0 then FirstAlternative(schema.oneOf, spec, depth, settings, fuel)
        else if |schema.anyOf| > 0 then FirstAlternative(schema.anyOf, spec, depth, settings, fuel)
        else Ok(Some(Null))
  }

  /** Resolves a child schema and walks it, spending one unit of fuel on the nested walk. */
  function ChildExample(child: SchemaRef, spec: Spec, depth: nat, settings: SpecBodySettings, fuel: nat): (r: Outcome)
    decreases fuel, 0, 0
  {
    match Resolve(child, spec)
    case Err(e) => Err(Unresolved(e))
    case Ok(s) => if fuel == 0 then Err(OutOfFuel) else SchemaExample(s, spec, depth, settings, fuel - 1)
  }

  /**
    The members an object gets from its declared properties: each property's
    schema is walked one level deeper, and only those that give a value are
    kept, in declaration order.  The first error ends the walk.
   */
  function PropertyElements(props: seq<(string, SchemaRef)>, spec: Spec, depth: nat, settings: SpecBodySettings,
                            fuel: nat): (r: Members)
    ensures r.Ok? ==> |r.value| <= |props|
    decreases fuel, 1, |props|
  {
    if |props| == 0 then Ok([])
    else
      match PropertyElements(props[..|props| - 1], spec, depth, settings, fuel)
      case Err(e) => Err(e)
      case Ok(kept) =>
        var (key, child) := props[|props| - 1];
        match ChildExample(child, spec, depth + 1, settings, fuel)
        case Err(e) => Err(e)
        case Ok(None) => Ok(kept)
        case Ok(Some(v)) => Ok(kept + [BuildJsonObjectElement(TemplateFromString(key), v, depth, settings.formatting)])
  }

  /** `json_obj_from_allof`'s members: the kept properties of every member schema, in list order. */
  function AllOfElements(members: seq<SchemaRef>, spec: Spec, depth: nat, settings: SpecBodySettings, fuel: nat): (r: Members)
    decreases fuel, 2, |members|
  {
    if |members| == 0 then Ok([])
    else
      match AllOfElements(members[..|members| - 1], spec, depth, settings, fuel)
      case Err(e) => Err(e)
      case Ok(acc) =>
        match Resolve(members[|members| - 1], spec)
        case Err(e) => Err(Unresolved(e))
        case Ok(s) =>
          match PropertyElements(s.properties, spec, depth, settings, fuel)
          case Err(e) => Err(e)
          case Ok(props) => Ok(acc + props)
  }

  /** `json_obj_from_anyof`: only the first member is walked, at the same depth; an empty list gives `{}`. */
  function FirstAlternative(members: seq<SchemaRef>, spec: Spec, depth: nat, settings: SpecBodySettings, fuel: nat): (r: Outcome)
    decreases fuel, 1, 0
  {
    if |members| == 0 then Ok(Some(Object(Fixed(""), [])))
    else ChildExample(members[0], spec, depth, settings, fuel)
  }

  function LowerChar(c: char): (r: char)
  {
    if 'A' <= c <= 'Z' then (c as int - 'A' as int + 'a' as int) as char else c
  }

  /** `to_lowercase`, on ASCII letters. */
  function ToLower(s: string): (r: string)
  {
    seq(|s|, i requires 0 <= i < |s| => LowerChar(s[i]))
  }

  predicate ContainsAt(s: string, sub: string, i: nat)
  {
    i + |sub| <= |s| && s[i..i + |sub|] == sub
  }

  predicate Contains(s: string, sub: string)
  {
    exists i: nat | i <= |s| :: ContainsAt(s, sub, i)
  }

  /** Whether the four letters of `name` from position `i` spell "json" in any mix of upper and lower case. */
  predicate JsonAt(name: string, i: nat)
    requires i + 4 <= |name|
  {
    LowerChar(name[i]) == 'j' && LowerChar(name[i + 1]) == 's' && LowerChar(name[i + 2]) == 'o' && LowerChar(name[i + 3]) == 'n'
  }

  /** The content-type test of `from_spec_body`: the lower-cased name contains "json". */
  function IsJsonMediaType(name: string): (r: bool)
    ensures r <==> exists i: nat | i + 4 <= |name| :: JsonAt(name, i)
  {
    var lower := ToLower(name);
    forall i: nat | i + 4 <= |name| ensures ContainsAt(lower, "json", i) <==> JsonAt(name, i) {
      assert lower[i..i + 4] == [lower[i], lower[i + 1], lower[i + 2], lower[i + 3]];
    }
    Contains(lower, "json")
  }

  /** The body `from_spec_body` wraps a generated value in. */
  function JsonBody(v: JsonValue): (b: Body)
  {
    Body([], EmptySpace(), v, Newline())
  }

  function BodyFrom(outcome: Outcome): (r: Result<Option<Body>, Error>)
  {
    match outcome
    case Err(e) => Err(e)
    case Ok(None) => Ok(None)
    case Ok(Some(v)) => Ok(Some(JsonBody(v)))
  }

  /**
    `from_spec_body`: the first content entry whose schema is present and whose
    name contains "json" is walked at depth 1; a schema that fails to resolve
    ends the search with its error, even for an entry that is not JSON.
   */
  function SpecBody(content: seq<(string, MediaType)>, spec: Spec, settings: SpecBodySettings, fuel: nat)
    : (r: Result<Option<Body>, Error>)
    decreases |content|
  {
    if |content| == 0 then Ok(None)
    else
      match ParseSchema(content[0].1.schema, spec)
      case Err(e) => Err(Unresolved(e))
      case Ok(None) => SpecBody(content[1..], spec, settings, fuel)
      case Ok(Some(schema)) =>
        if IsJsonMediaType(content[0].0) then BodyFrom(SchemaExample(schema, spec, 1, settings, fuel))
        else SpecBody(content[1..], spec, settings, fuel)
  }

  // ---------------------------------------------------------------------------
  // The generator as the Rust code runs it.
  // ---------------------------------------------------------------------------

  method FromSpecBody(specBody: RequestBodySpec, spec: Spec, settings: SpecBodySettings, fuel: nat)
    returns (r: Result<Option<Body>, Error>)
    ensures r == SpecBody(specBody.content, spec, settings, fuel)
  {
    var content := specBody.content;
    var i := 0;
    while i < |content|
      invariant 0 <= i <= |content|
      invariant SpecBody(content[i..], spec, settings, fuel) == SpecBody(content, spec, settings, fuel)
    {
      var (name, media) := content[i];
      var parsed := ParseSchema(media.schema, spec);
      if parsed.Err? {
        return Err(Unresolved(parsed.error));
      }
      if parsed.value.Some? && IsJsonMediaType(name) {
        var v := ParseJsonFromSchema(parsed.value.value, spec, 1, settings, fuel);
        match v {
          case Err(e) => return Err(e);
          case Ok(None) => return Ok(None);
          case Ok(Some(json)) => return Ok(Some(JsonBody(json)));
        }
      }
      assert content[i..][1..] == content[i + 1..];
      i := i + 1;
    }
    return Ok(None);
  }

  method ParseJsonFromSchema(schema: Schema, spec: Spec, depth: nat, settings: SpecBodySettings, fuel: nat)
    returns (r: Outcome)
    ensures r == SchemaExample(schema, spec, depth, settings, fuel)
    decreases fuel, 2
  {
    if IsReadOnly(schema) {
      return Ok(None);
    }
    if schema.example.Some? {
      return Ok(Some(SerdeToHurlJson(schema.example.value, depth, settings)));
    }
    if schema.schemaType.Some? {
      match DefaultJsonValueFromSchemaType(schema.schemaType.value) {
        case Scalar(v) =>
          return Ok(Some(v));
        case ArrayDefault =>
          if schema.items.Some? {
            var item := ParseChild(schema.items.value, spec, depth, settings, fuel);
            if item.Err? {
              return Err(item.error);
            }
            var elements := if item.value.Some? then [BuildJsonListValue(item.value.value, settings.formatting)] else [];
            return Ok(Some(List(BuildJsonListSpace(settings.formatting), elements)));
          }
          return Ok(Some(List(Fixed("\n"), [])));
        case ObjectDefault =>
          var props := [];
          var properties := schema.properties;
          var i := 0;
          while i < |properties|
            invariant 0 <= i <= |properties|
            invariant PropertyElements(properties[..i], spec, depth, settings, fuel) == Ok(props)
          {
            var (key, child) := properties[i];
            assert properties[..i + 1][..i] == properties[..i];
            var val := ParseChild(child, spec, depth + 1, settings, fuel);
            if val.Err? {
              PropertyErrorPersists(properties, i + 1, spec, depth, settings, fuel);
              return Err(val.error);
            }
            if val.value.Some? {
              props := props + [BuildJsonObjectElement(TemplateFromString(key), val.value.value, depth, settings.formatting)];
            }
            i := i + 1;
          }
          assert properties[..i] == properties;
          return Ok(Some(Object(Fixed(""), props)));
      }
    }
    if |schema.allOf| > 0 {
      var obj := JsonObjFromAllof(schema.allOf, spec, depth, settings, fuel);
      if obj.Err? {
        return Err(obj.error);
      }
      return Ok(Some(obj.value));
    }
    if |schema.oneOf| > 0 {
      r := JsonObjFromAnyof(schema.oneOf, spec, depth, settings, fuel);
      return;
    }
    // oneOf and anyOf are treated alike: only their first schema is used
    if |schema.anyOf| > 0 {
      r := JsonObjFromAnyof(schema.anyOf, spec, depth, settings, fuel);
      return;
    }
    return Ok(Some(Null));
  }

  /** Resolves a child schema and walks it; the nested walk spends one unit of fuel. */
  method ParseChild(child: SchemaRef, spec: Spec, depth: nat, settings: SpecBodySettings, fuel: nat)
    returns (r: Outcome)
    ensures r == ChildExample(child, spec, depth, settings, fuel)
    decreases fuel, 0
  {
    var resolved := Resolve(child, spec);
    if resolved.Err? {
      return Err(Unresolved(resolved.error));
    }
    if fuel == 0 {
      return Err(OutOfFuel);
    }
    r := ParseJsonFromSchema(resolved.value, spec, depth, settings, fuel - 1);
  }

  /** The Rust loop returns from its first iteration, so only the first member is ever walked. */
  method JsonObjFromAnyof(anyof: seq<SchemaRef>, spec: Spec, depth: nat, settings: SpecBodySettings, fuel: nat)
    returns (r: Outcome)
    ensures r == FirstAlternative(anyof, spec, depth, settings, fuel)
    decreases fuel, 1
  {
    if |anyof| > 0 {
      r := ParseChild(anyof[0], spec, depth, settings, fuel);
      return;
    }
    return Ok(Some(Object(Fixed(""), [])));
  }

  method JsonObjFromAllof(allof: seq<SchemaRef>, spec: Spec, depth: nat, settings: SpecBodySettings, fuel: nat)
    returns (r: Result<JsonValue, Error>)
    ensures AllOfElements(allof, spec, depth, settings, fuel).Err? ==> r == Err(AllOfElements(allof, spec, depth, settings, fuel).error)
    ensures AllOfElements(allof, spec, depth, settings, fuel).Ok? ==> r == Ok(Object(Fixed(""), AllOfElements(allof, spec, depth, settings, fuel).value))
    decreases fuel, 1
  {
    var properties := [];
    var m := 0;
    while m < |allof|
      invariant 0 <= m <= |allof|
      invariant AllOfElements(allof[..m], spec, depth, settings, fuel) == Ok(properties)
    {
      assert allof[..m + 1][..m] == allof[..m];
      var resolved := Resolve(allof[m], spec);
      if resolved.Err? {
        AllOfErrorPersists(allof, m + 1, spec, depth, settings, fuel);
        return Err(Unresolved(resolved.error));
      }
      var props := resolved.value.properties;
      ghost var before := properties;
      var i := 0;
      assert props[..0] == [] && properties[|before|..] == [];
      while i < |props|
        invariant 0 <= i <= |props|
        invariant |before| <= |properties| && properties[..|before|] == before
        invariant PropertyElements(props[..i], spec, depth, settings, fuel) == Ok(properties[|before|..])
      {
        var (key, child) := props[i];
        assert props[..i + 1][..i] == props[..i];
        var value := ParseChild(child, spec, depth + 1, settings, fuel);
        if value.Err? {
          PropertyErrorPersists(props, i + 1, spec, depth, settings, fuel);
          AllOfErrorPersists(allof, m + 1, spec, depth, settings, fuel);
          return Err(value.error);
        }
        if value.value.Some? {
          var element := BuildJsonObjectElement(TemplateFromString(key), value.value.value, depth, settings.formatting);
          assert (properties + [element])[|before|..] == properties[|before|..] + [element];
          properties := properties + [element];
        }
        i := i + 1;
      }
      assert props[..i] == props;
      assert properties == before + properties[|before|..];
      m := m + 1;
    }
    assert allof[..m] == allof;
    return Ok(Object(Fixed(""), properties));
  }

  /** Once a prefix of the properties fails, the whole list fails with the same error. */
  lemma {:induction false} PropertyErrorPersists(props: seq<(string, SchemaRef)>, n: nat, spec: Spec, depth: nat,
                                                 settings: SpecBodySettings, fuel: nat)
    requires n <= |props|
    requires PropertyElements(props[..n], spec, depth, settings, fuel).Err?
    ensures PropertyElements(props, spec, depth, settings, fuel) == PropertyElements(props[..n], spec, depth, settings, fuel)
    decreases |props| - n
  {
    if n < |props| {
      assert props[..n + 1][..n] == props[..n];
      PropertyErrorPersists(props, n + 1, spec, depth, settings, fuel);
    } else {
      assert props[..n] == props;
    }
  }

  /** Once a prefix of the allOf members fails, the whole list fails with the same error. */
  lemma {:induction false} AllOfErrorPersists(members: seq<SchemaRef>, n: nat, spec: Spec, depth: nat,
                                              settings: SpecBodySettings, fuel: nat)
    requires n <= |members|
    requires AllOfElements(members[..n], spec, depth, settings, fuel).Err?
    ensures AllOfElements(members, spec, depth, settings, fuel) == AllOfElements(members[..n], spec, depth, settings, fuel)
    decreases |members| - n
  {
    if n < |members| {
      assert members[..n + 1][..n] == members[..n];
      AllOfErrorPersists(members, n + 1, spec, depth, settings, fuel);
    } else {
      assert members[..n] == members;
    }
  }
}
