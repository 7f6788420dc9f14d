# Request-body generator of openapi-to-hurl, modelled in Dafny

openapi-to-hurl writes Hurl test files from an OpenAPI document. For each
operation that declares a request body, it picks the first content type that
has a schema and whose name contains "json"; a schema that fails to resolve
before that entry fails the call. It then turns that content type's schema into a
representative JSON value. This project models that generator
(`src/request_body/request_body.rs`) and proves what it does.

The walker applies a fixed precedence of rules to a schema:

1. `readOnly` gives no value.
2. An explicit `example` is converted as it is.
3. A `type` gives a default. Scalars get fixed literals. An array walks its
   `items`. An object walks its properties one level deeper and keeps those
   that give a value.
4. With no `type`, composition is tried: `allOf` merges the properties of its
   members, and `oneOf` and then `anyOf` use only their first member.
5. The fallback is `null`.

A reference that the walk tries to resolve and cannot find fails the whole call.

Files:

- `wrappers.dfy`: `Option` and `Result`.
- `serde_json.dfy`: the loosely-typed example value.
- `hurl_ast.dfy`: the output JSON AST and its layout builders.
- `open_api.dfy`: schemas, references and their resolution.
- `request_body.dfy`: the generator. Its functions give its meaning, and its
  methods follow the Rust code's loops and early returns. Each method is proved
  to compute its function.
- `walker_properties.dfy`, `fuel_properties.dfy`, `example_properties.dfy`,
  `spec_body_properties.dfy`, `scenarios.dfy`: what is proved about the generator.

Modelling choices:

- A child schema is either `Inline(schema)` or `Ref(name)`. A `Ref` is looked
  up in the document's schema table, and a missing name is a `RefError`.
- The Rust walker has no cycle guard. On a schema whose walk reaches the same
  schema again (for example an array whose `items` refers back to it) it
  recurses until the stack overflows. A schema that only names itself where
  the walk does not go on, such as `{allOf: [$ref A]}`, still finishes. The model gives the walker `fuel`, and
  every nested walk spends one unit of it. When a nested walk is needed and no
  fuel is left, the result is `OutOfFuel`. `FuelProperties.SchemaExampleFuel`
  proves that any other result does not change when more fuel is given.
  `FuelProperties.SelfReferenceNeverFinishes` proves that a self-referential
  array gives `OutOfFuel` for every bound, as the source never finishes on it.
- The layout builders `build_json_list_space`, `build_json_list_value`,
  `build_json_object_element` and `template_from_string` are defined outside
  this file, so they are modelled as free constructors. The whitespace they
  produce is known only by the arguments it was built from: the formatting
  options and, for object members, the depth. `empty_space` and `newline`
  take no arguments; they are fixed to `""` and `"\n"`.
  The literal `"\n"` of an array without `items`, and the literal `""` before
  every object's members, are kept as they are written.
- Depth grows by one only for object members. `json_obj_from_anyof` walks
  the first member at the same depth (request_body.rs:227), and
  `json_obj_from_allof` walks each property at depth + 1 but lays it out at
  depth (request_body.rs:245-251).

## Model

| member | source | states |
|---|---|---|
| `OpenApi.Resolve` | src/request_body/request_body.rs:84-86 | resolving fails exactly on a reference whose name is not in the document; otherwise it gives the inline schema or the named one |
| `OpenApi.ParseSchema` | src/request_body/request_body.rs:36-39 | a media type without a schema gives nothing; otherwise its schema is resolved, with the same error on failure |
| `RequestBody.FromSpecBody` | src/request_body/request_body.rs:30-56 | the loop over content entries, with its early returns, computes `SpecBody` |
| `RequestBody.ParseJsonFromSchema` | src/request_body/request_body.rs:58-154 | the walker, with its object loop and early returns, computes `SchemaExample` |
| `RequestBody.ParseChild` | src/request_body/request_body.rs:84-87 | resolving a child and walking it computes `ChildExample` |
| `RequestBody.JsonObjFromAnyof` | src/request_body/request_body.rs:220-234 | returning from the first iteration computes `FirstAlternative` |
| `RequestBody.JsonObjFromAllof` | src/request_body/request_body.rs:236-262 | the two nested loops give the object of `AllOfElements`, or its error |
| `RequestBody.DefaultJsonValueFromSchemaType` | src/request_body/request_body.rs:201-218 | array and object types, and only they, defer to `items` and `properties`; every other type gives a scalar, which is never null, a list or an object, and is a number exactly for integer and number |
| `RequestBody.SerdeToHurlJson` | src/request_body/request_body.rs:156-193 | each example value maps to the output value of the same kind, with the same boolean, number text or string; an array keeps its length; an object keeps its key count and keys in order, with every member laid out at the given depth |
| `RequestBody.IsJsonMediaType` | src/request_body/request_body.rs:42 | a content-type name passes exactly when four consecutive characters spell "json" in any mix of ASCII case |
| `RequestBody.PropertyElements` | src/request_body/request_body.rs:102-126 | an object never has more members than declared properties |
| `RequestBody.PropertyErrorPersists` | src/request_body/request_body.rs:105-111 | once a property fails, the object fails with that same error |
| `RequestBody.AllOfErrorPersists` | src/request_body/request_body.rs:243-245 | once an allOf member fails, the merge fails with that same error |
| `WalkerProperties.ReadOnlyYieldsNothing` | src/request_body/request_body.rs:64-66 | a readOnly schema gives no value, whatever else it declares |
| `WalkerProperties.ExampleTakesPrecedence` | src/request_body/request_body.rs:68-71 | a present example is converted for any document and any bound: type and composition are not read, and no reference is resolved |
| `WalkerProperties.ScalarTypeDefaults` | src/request_body/request_body.rs:201-214 | boolean gives `true`, integer gives `3`, number gives `3.3` and string gives the template `string` |
| `WalkerProperties.ArrayWithItems` | src/request_body/request_body.rs:82-96 | an array with items is a formatted list of at most one element: the items value walked at the same depth. The list is empty exactly when the items give nothing, and an items error is the array's error |
| `WalkerProperties.ArrayWithoutItems` | src/request_body/request_body.rs:97-100 | an array without items is the empty list with the literal newline, for any document and bound; the literal is assumed distinct from any `build_json_list_space` result |
| `WalkerProperties.ObjectFromProperties` | src/request_body/request_body.rs:102-127 | an object type gives the object of its kept properties, or their first error |
| `WalkerProperties.CompositionOrder` | src/request_body/request_body.rs:130-152 | without a type, a non-empty allOf gives its merged object. Otherwise a non-empty oneOf gives its first member's result at the same depth, then likewise anyOf. This schema's own null fallback (line 151) is reached only when all three lists are empty |
| `WalkerProperties.FirstAlternativeIgnoresRest` | src/request_body/request_body.rs:226-228 | only the first alternative is walked; the members after it never change the result |
| `WalkerProperties.PropertyElementsSingle` | src/request_body/request_body.rs:112-120 | a property contributes its member when its schema gives a value, and nothing (never null) when it gives none |
| `WalkerProperties.PropertyElementsConcat` | src/request_body/request_body.rs:103-121 | the members are the properties' contributions joined in declaration order, and the first error wins |
| `WalkerProperties.PropertyElementsFailIff` | src/request_body/request_body.rs:106-111 | no partial result: an object fails exactly when one of its properties' schemas fails |
| `WalkerProperties.AllOfElementsSingle` | src/request_body/request_body.rs:244-255 | one allOf member contributes the kept properties of its resolved schema, or its resolution error |
| `WalkerProperties.AllOfElementsConcat` | src/request_body/request_body.rs:242-256 | allOf joins its members' contributions in list order, and the first error wins |
| `FuelProperties.SchemaExampleFuel` | src/request_body/request_body.rs:58-154 | any walker result other than `OutOfFuel` stays the same under a larger nesting bound |
| `FuelProperties.ChildExampleFuel` | src/request_body/request_body.rs:84-85 | a child's result other than `OutOfFuel` stays the same under a larger bound |
| `FuelProperties.PropertyElementsFuel` | src/request_body/request_body.rs:105-121 | a property list's result other than `OutOfFuel` stays the same under a larger bound |
| `FuelProperties.AllOfElementsFuel` | src/request_body/request_body.rs:243-256 | an allOf result other than `OutOfFuel` stays the same under a larger bound |
| `FuelProperties.FirstAlternativeFuel` | src/request_body/request_body.rs:226-228 | a oneOf/anyOf result other than `OutOfFuel` stays the same under a larger bound |
| `FuelProperties.SchemaExampleErrorsDangle` | src/request_body/request_body.rs:84-86 | every resolution error of the walk names a schema missing from the document |
| `FuelProperties.ChildExampleErrorsDangle` | src/request_body/request_body.rs:107 | every resolution error of a child names a missing schema |
| `FuelProperties.PropertyElementsErrorsDangle` | src/request_body/request_body.rs:105-111 | every resolution error of a property list names a missing schema |
| `FuelProperties.AllOfElementsErrorsDangle` | src/request_body/request_body.rs:244-245 | every resolution error of an allOf names a missing schema |
| `FuelProperties.FirstAlternativeErrorsDangle` | src/request_body/request_body.rs:227 | every resolution error of a oneOf/anyOf names a missing schema |
| `FuelProperties.SelfReferenceNeverFinishes` | src/request_body/request_body.rs:82-87 | an array whose items refer back to itself never gives a value, for any bound |
| `FuelProperties.SelfAllOfFinishes` | src/request_body/request_body.rs:243-244 | a schema whose only allOf member refers back to it gives `{}` for every bound, because allOf reads only its members' properties |
| `ExampleProperties.SerdeRoundTrip` | src/request_body/request_body.rs:156-193 | converting an example and dropping the whitespace gives the example back: each scalar keeps its kind, and arrays and objects keep their length, order and keys |
| `ExampleProperties.SerdeDecorated` | src/request_body/request_body.rs:166-191 | every list and object of a converted example carries the formatting decoration, and every object member carries the same depth |
| `ExampleProperties.SerdeDeterminedByShape` | src/request_body/request_body.rs:156-193 | any decorated value is the conversion of its own shape, so the two lemmas above determine the conversion |
| `SpecBodyProperties.SkippedPrefix` | src/request_body/request_body.rs:35-39 | entries with no schema, and entries whose schema resolves but whose name is not JSON, are passed over |
| `SpecBodyProperties.FirstJsonEntryWins` | src/request_body/request_body.rs:42-51 | the first entry with a schema and a JSON name decides the result: its schema is walked at depth 1 and wrapped in a body with empty leading space and a trailing newline |
| `SpecBodyProperties.NoJsonEntryNoBody` | src/request_body/request_body.rs:55 | with no such entry, there is no body |
| `SpecBodyProperties.EarlierResolutionErrorFails` | src/request_body/request_body.rs:36 | a schema that fails to resolve before the JSON entry fails the whole call, even when its entry is not JSON |
| `SpecBodyProperties.UpperCaseJsonIsJson` | src/request_body/request_body.rs:42 | the content-type test ignores case: `application/JSON` is JSON and `text/plain` is not |
| `Scenarios.AllOfMergesTwoSchemas` | src/request_body/request_body.rs:236-262 | allOf of `{a: string}` and `{b: integer}` is one object with `a: "string"` then `b: 3` |
| `Scenarios.OneOfUsesOnlyTheFirst` | src/request_body/request_body.rs:140-141 | oneOf of a boolean and a dangling reference gives `true`: the second member is never resolved |
| `Scenarios.ReadOnlyPropertyOmitted` | src/request_body/request_body.rs:112-120 | a readOnly property is left out of its object rather than written as null |

## Left out

- Logging: the `debug!` message on the null fallback (request_body.rs:149) is a side effect only.
- `SpecBodySettings::from_settings`: it is configuration plumbing. The settings are modelled as the formatting options alone, passed through unchanged.
- Layout builders: `hurl_json_building`, `custom_hurl_ast` and the `Body` wrapper's trivia types are not part of this model. The builders are free constructors, so the model treats two decorations as different whenever they were built from different arguments. For example, it assumes `build_json_list_space` never returns exactly `"\n"`.
- oas3 parsing and `ObjectOrReference::resolve`: these are a foreign library. Resolution is a lookup by name. Every resolution failure (a malformed path or a target of the wrong kind, as well as a missing name) is reduced to a missing name.
- `parse_schema` in `src/request_body/body.rs` is not part of this model. It is taken to resolve the media type's optional schema.
- Number formatting: `3.to_string()` and `3.3.to_string()` are the fixed texts `"3"` and `"3.3"`. An example's number is kept as the text `serde_json` prints for it.
- `to_lowercase`: only ASCII letters are lowered. Unicode case mapping is not modelled.
- Key order: the order of an example object's keys, of a schema's properties and of a request body's content entries depends on the maps the libraries use. All three are taken as the ordered sequences the parsed document provides, and duplicate keys are not excluded.
- Stack overflow: on a schema whose walk reaches the same schema again, the source recurses without end. The model reports `OutOfFuel` instead, as described above.
- `usize` depth: depth is an unbounded natural number. `depth + 1` cannot overflow at any depth a real stack reaches.
- `RequestBody.JsonObjFromAnyof`: the Rust `for` loop returns during its first iteration, so it is modelled as a test for a non-empty list.
