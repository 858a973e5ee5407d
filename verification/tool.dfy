/**
 * The tool declaration of Sources/Converse/Tool.swift and its conversions to
 * and from the SDK's `ToolSpecification`. The Smithy document conversions
 * (`toJSON`, `toDocument`) are taken as lossless: the SDK schema carries the
 * same JSON value.
 */
module Tools {
  import opened Base
  import opened JsonValue

  datatype Tool = Tool(name: string, inputSchema: Json, toolDescription: Option<string>)

  /** The SDK's `ToolInputSchema`: a JSON document, or a case this SDK version does not know. */
  datatype SdkToolInputSchema = SdkJsonSchema(document: Json) | SdkUnknownSchema(name: string)

  datatype SdkToolSpecification = SdkToolSpecification(
    description: Option<string>,
    inputSchema: Option<SdkToolInputSchema>,
    name: Option<string>)

  /** One character of the class `[a-zA-Z0-9_-]`. */
  predicate IsNameChar(c: char) {
    'a' <= c <= 'z' || 'A' <= c <= 'Z' || '0' <= c <= '9' || c == '_' || c == '-'
  }

  /** `name.contains(/[a-zA-Z0-9_-]+/)`: some substring matches, so one matching character suffices. */
  predicate ContainsNameChar(name: string) {
    exists i :: 0 <= i < |name| && IsNameChar(name[i])
  }

  /** `init(name:inputSchema:description:)`. */
  function NewTool(name: string, inputSchema: Json, description: Option<string>): (r: Result<Tool>)
    ensures r.Success? <==> name != "" && ContainsNameChar(name)
    ensures name == "" ==> r == Failure(InvalidName("empty"))
    ensures name != "" && !ContainsNameChar(name) ==> r == Failure(InvalidName("characters"))
    ensures r.Success? ==> r.value == Tool(name, inputSchema, description)
  {
    if name == "" then Failure(InvalidName("empty"))
    else if !ContainsNameChar(name) then Failure(InvalidName("characters"))
    else Success(Tool(name, inputSchema, description))
  }

  /** `init(from sdkToolSpecification:)`: name, then schema, then its JSON case; then the main initializer. */
  function ToolFromSdk(spec: SdkToolSpecification): (r: Result<Tool>)
    ensures spec.name.None? ==> r == Failure(DecodingError("name"))
    ensures spec.name.Some? && spec.inputSchema.None? ==> r == Failure(DecodingError("inputSchema"))
    ensures spec.name.Some? && spec.inputSchema.Some? && spec.inputSchema.value.SdkUnknownSchema? ==>
      r == Failure(DecodingError("inputSchema.json"))
    ensures spec.name.Some? && spec.inputSchema.Some? && spec.inputSchema.value.SdkJsonSchema? ==>
      r == NewTool(spec.name.value, spec.inputSchema.value.document, spec.description)
  {
    match spec.name
    case None => Failure(DecodingError("name"))
    case Some(name) =>
      match spec.inputSchema
      case None => Failure(DecodingError("inputSchema"))
      case Some(SdkUnknownSchema(_)) => Failure(DecodingError("inputSchema.json"))
      case Some(SdkJsonSchema(document)) => NewTool(name, document, spec.description)
  }

  /** The `description` of `CustomStringConvertible`: `Tool(name: N, description: D)`, with `nil` for no description. */
  function Description(t: Tool): (s: string)
    ensures "Tool(name: " + t.name + ", description: " <= s
    ensures s[|s| - 1] == ')'
    ensures t.toolDescription.Some? ==> s[|"Tool(name: " + t.name + ", description: "|..|s| - 1] == t.toolDescription.value
    ensures t.toolDescription.None? ==> s[|"Tool(name: " + t.name + ", description: "|..|s| - 1] == "nil"
  {
    "Tool(name: " + t.name + ", description: " + (if t.toolDescription.Some? then t.toolDescription.value else "nil") + ")"
  }

  /** `getSDKToolSpecification`: note that it sends `description`, not `toolDescription`. */
  function ToolToSdk(t: Tool): (spec: SdkToolSpecification)
    ensures spec.name == Some(t.name) && spec.inputSchema == Some(SdkJsonSchema(t.inputSchema))
    ensures spec.description == Some(Description(t))
  {
    SdkToolSpecification(Some(Description(t)), Some(SdkJsonSchema(t.inputSchema)), Some(t.name))
  }

  /** Name validation is a search, not a full match: a name with one allowed character passes. */
  lemma NameCheckIsContains(schema: Json)
    ensures NewTool("my tool!", schema, None).Success?
    ensures NewTool("!?", schema, None) == Failure(InvalidName("characters"))
  {
    assert IsNameChar("my tool!"[0]);
    assert !IsNameChar("!?"[0]) && !IsNameChar("!?"[1]);
  }

  /**
   * Tool to SDK and back keeps the name and schema but never the description:
   * the rendered `description` replaces `toolDescription`.
   */
  lemma SdkRoundTripReplacesDescription(t: Tool)
    requires NewTool(t.name, t.inputSchema, t.toolDescription) == Success(t)
    ensures ToolFromSdk(ToolToSdk(t)) == Success(Tool(t.name, t.inputSchema, Some(Description(t))))
    ensures ToolFromSdk(ToolToSdk(t)).value.toolDescription != t.toolDescription
  {
  }

  /** The description renders a missing `toolDescription` as `nil`, and a present one as itself. */
  lemma DescriptionRendering(name: string, schema: Json, description: string)
    ensures Description(Tool(name, schema, None)) == "Tool(name: " + name + ", description: nil)"
    ensures Description(Tool(name, schema, Some(description))) == "Tool(name: " + name + ", description: " + description + ")"
  {
  }

  /**
   * A tool without a description and a tool described as `"nil"` render
   * alike, so the rendered text does not determine the description.
   */
  lemma DescriptionCannotTellNilApart(name: string, schema: Json)
    ensures Description(Tool(name, schema, None)) == Description(Tool(name, schema, Some("nil")))
  {
  }

  /** `getSDKToolSpecification` as evidently intended: the SDK description is the tool's own `toolDescription`. */
  function ToolToSdkIntended(t: Tool): (spec: SdkToolSpecification)
    ensures spec.name == Some(t.name) && spec.inputSchema == Some(SdkJsonSchema(t.inputSchema))
    ensures spec.description == t.toolDescription
  {
    SdkToolSpecification(t.toolDescription, Some(SdkJsonSchema(t.inputSchema)), Some(t.name))
  }

  /** With the intended conversion a valid tool survives the trip to the SDK and back unchanged. */
  lemma IntendedSdkRoundTrip(t: Tool)
    requires NewTool(t.name, t.inputSchema, t.toolDescription) == Success(t)
    ensures ToolFromSdk(ToolToSdkIntended(t)) == Success(t)
  {
  }

  /** And every SDK specification with a JSON schema that converts comes back as itself. */
  lemma IntendedSdkRoundTripFromSdk(spec: SdkToolSpecification)
    requires ToolFromSdk(spec).Success?
    ensures ToolToSdkIntended(ToolFromSdk(spec).value) == spec
  {
  }
}
