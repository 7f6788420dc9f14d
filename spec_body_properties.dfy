/** Which content entry `from_spec_body` turns into the request body. */
module SpecBodyProperties {
  import opened Wrappers
  import opened HurlAst
  import opened OpenApi
  import opened RequestBody

  /** An entry the search passes over: its schema resolves, and it is absent or not JSON. */
  predicate Skipped(entry: (string, MediaType), spec: Spec)
  {
    var parsed := ParseSchema(entry.1.schema, spec);
    parsed.Ok? && !(parsed.value.Some? && IsJsonMediaType(entry.0))
  }

  /** An entry the search stops at: its schema resolves to a schema and its name contains "json". */
  predicate Selected(entry: (string, MediaType), spec: Spec)
  {
    var parsed := ParseSchema(entry.1.schema, spec);
    parsed.Ok? && parsed.value.Some? && IsJsonMediaType(entry.0)
  }

  lemma {:induction false} SkippedPrefix(content: seq<(string, MediaType)>, i: nat, spec: Spec,
                                         settings: SpecBodySettings, fuel: nat)
    requires i <= |content|
    requires forall j :: 0 <= j < i ==> Skipped(content[j], spec)
    ensures SpecBody(content, spec, settings, fuel) == SpecBody(content[i..], spec, settings, fuel)
  {
    if i > 0 {
      assert Skipped(content[0], spec);
      SkippedPrefix(content[1..], i - 1, spec, settings, fuel);
      assert content[1..][i - 1..] == content[i..];
    }
  }

  /** The first selected entry decides the result; its schema is walked at depth 1. */
  lemma FirstJsonEntryWins(content: seq<(string, MediaType)>, i: nat, spec: Spec, settings: SpecBodySettings, fuel: nat)
    requires i < |content|
    requires forall j :: 0 <= j < i ==> Skipped(content[j], spec)
    requires Selected(content[i], spec)
    ensures var r := SchemaExample(ParseSchema(content[i].1.schema, spec).value.value, spec, 1, settings, fuel);
            var body := SpecBody(content, spec, settings, fuel);
            && (r.Err? ==> body == Err(r.error))
            && (r.Ok? && r.value.None? ==> body == Ok(None))
            && (r.Ok? && r.value.Some? ==> body == Ok(Some(Body([], "", r.value.value, "\n"))))
  {
    SkippedPrefix(content, i, spec, settings, fuel);
  }

  /** With no selected entry, there is no body. */
  lemma NoJsonEntryNoBody(content: seq<(string, MediaType)>, spec: Spec, settings: SpecBodySettings, fuel: nat)
    requires forall j :: 0 <= j < |content| ==> Skipped(content[j], spec)
    ensures SpecBody(content, spec, settings, fuel) == Ok(None)
  {
    SkippedPrefix(content, |content|, spec, settings, fuel);
  }

  /** A schema that fails to resolve before the JSON entry fails the whole call, even if it is not JSON. */
  lemma EarlierResolutionErrorFails(content: seq<(string, MediaType)>, i: nat, spec: Spec, settings: SpecBodySettings,
                                    fuel: nat)
    requires i < |content|
    requires forall j :: 0 <= j < i ==> Skipped(content[j], spec)
    requires ParseSchema(content[i].1.schema, spec).Err?
    ensures SpecBody(content, spec, settings, fuel) == Err(Unresolved(ParseSchema(content[i].1.schema, spec).error))
  {
    SkippedPrefix(content, i, spec, settings, fuel);
  }

  /** The content-type test ignores ASCII case. */
  lemma UpperCaseJsonIsJson()
    ensures IsJsonMediaType("application/JSON")
    ensures !IsJsonMediaType("text/plain")
  {
    var lower := ToLower("application/JSON");
    assert lower == "application/json";
    assert ContainsAt(lower, "json", 12);
    var plain := ToLower("text/plain");
    assert plain == "text/plain";
    forall i: nat | i <= |plain| ensures !ContainsAt(plain, "json", i) {
      if i + 4 <= |plain| {
        assert plain[i..i + 4][0] == plain[i] != 'j';
      }
    }
  }
}
