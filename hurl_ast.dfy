/**
  The part of the Hurl file AST that a generated request body is made of,
  together with the builders that decorate it with whitespace.

  The builders `build_json_list_space`, `build_json_list_value`,
  `build_json_object_element` and `template_from_string` live outside the
  modelled file.  They are modelled as free constructors: the whitespace they
  produce is recorded only by the arguments it was computed from, so two calls
  with the same arguments give the same decoration.  `empty_space` and
  `newline` take no arguments and are fixed to "" and "\n".
 */
module HurlAst {

  /** The command line's formatting options, passed through unchanged; their contents are not modelled. */
  datatype Formatting = Formatting(options: seq<string>)

  /** A Hurl template; the generator only ever builds one made of a single literal. */
  datatype Template = Template(text: string)

  /** Whitespace before the elements of a list or an object. */
  datatype Space =
    | Fixed(text: string)              // a literal written in the generator itself
    | Formatted(formatting: Formatting) // whatever `build_json_list_space` derives from the options

  /** Whitespace around one list element, derived from the options. */
  datatype ListValueLayout = ListValueLayout(formatting: Formatting)

  /** Whitespace around one object member, derived from the nesting depth and the options. */
  datatype ObjectElementLayout = ObjectElementLayout(depth: nat, formatting: Formatting)

  datatype JsonListElement = JsonListElement(layout: ListValueLayout, value: JsonValue)

  datatype JsonObjectElement = JsonObjectElement(layout: ObjectElementLayout, name: Template, value: JsonValue)

  datatype JsonValue =
    | Null
    | Boolean(b: bool)
    | Number(text: string)
    | String(template: Template)
    | List(space0: Space, elements: seq<JsonListElement>)
    | Object(space0: Space, members: seq<JsonObjectElement>)

  /** A request body holding a JSON payload. */
  datatype Body = Body(lineTerminators: seq<string>, space0: string, json: JsonValue, lineTerminator0: string)

  function TemplateFromString(s: string): (t: Template)
  {
    Template(s)
  }

  function BuildJsonListSpace(formatting: Formatting): (space: Space)
  {
    Formatted(formatting)
  }

  function BuildJsonListValue(value: JsonValue, formatting: Formatting): (element: JsonListElement)
  {
    JsonListElement(ListValueLayout(formatting), value)
  }

  function BuildJsonObjectElement(name: Template, value: JsonValue, depth: nat, formatting: Formatting): (element: JsonObjectElement)
  {
    JsonObjectElement(ObjectElementLayout(depth, formatting), name, value)
  }

  /** `empty_space()`: no leading whitespace. */
  function EmptySpace(): (space: string)
  {
    ""
  }

  /** `newline()`: a single trailing line feed. */
  function Newline(): (terminator: string)
  {
    "\n"
  }
}
