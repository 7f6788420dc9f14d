/**
  The resolved OpenAPI schema graph the generator walks.  A child schema is
  either written inline or named by a reference into the document's schema
  table; resolving a reference is a map lookup that fails on a missing name.
 */
module OpenApi {
  import opened Wrappers
  import SerdeJson

  datatype SchemaType = BooleanType | IntegerType | NumberType | StringType | ArrayType | ObjectType

  datatype Schema = Schema(
    readOnly: Option<bool>,
    example: Option<SerdeJson.Value>,
    schemaType: Option<SchemaType>,
    items: Option<SchemaRef>,
    properties: seq<(string, SchemaRef)>,
    allOf: seq<SchemaRef>,
    oneOf: seq<SchemaRef>,
    anyOf: seq<SchemaRef>)

  datatype SchemaRef = Inline(schema: Schema) | Ref(name: string)

  /** The parsed document, reduced to what resolution needs: its named schemas. */
  datatype Spec = Spec(schemas: map<string, Schema>)

  /** A reference whose target is not in the document. */
  datatype RefError = Unresolvable(name: string)

  /** One content-type entry of a request body: its optional schema. */
  datatype MediaType = MediaType(schema: Option<SchemaRef>)

  /** A request body object: its content-type entries, in the order the parsed document provides. */
  datatype RequestBodySpec = RequestBodySpec(content: seq<(string, MediaType)>)

  /** `ObjectOrReference::resolve`: an inline schema is itself, a reference is looked up. */
  function Resolve(r: SchemaRef, spec: Spec): (res: Result<Schema, RefError>)
    ensures res.Err? <==> r.Ref? && r.name !in spec.schemas
    ensures res.Err? ==> res.error == Unresolvable(r.name)
    ensures res.Ok? && r.Inline? ==> res.value == r.schema
    ensures res.Ok? && r.Ref? ==> res.value == spec.schemas[r.name]
  {
    match r
    case Inline(s) => Ok(s)
    case Ref(name) => if name in spec.schemas then Ok(spec.schemas[name]) else Err(Unresolvable(name))
  }

  /** `parse_schema`: a media type without a schema gives nothing, otherwise its schema is resolved. */
  function ParseSchema(schema: Option<SchemaRef>, spec: Spec): (res: Result<Option<Schema>, RefError>)
    ensures schema.None? ==> res == Ok(None)
    ensures schema.Some? && res.Ok? ==> res.value.Some? && Resolve(schema.value, spec) == Ok(res.value.value)
    ensures schema.Some? && res.Err? ==> Resolve(schema.value, spec) == Err(res.error)
  {
    match schema
    case None => Ok(None)
    case Some(r) =>
      match Resolve(r, spec)
      case Err(e) => Err(e)
      case Ok(s) => Ok(Some(s))
  }
}
