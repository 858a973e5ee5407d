/**
 * The Titan text adapter of Sources/Models/Amazon/Titan/Titan.swift. Every
 * knob the request body carries must resolve to a value (`explicit ??
 * default`); topK does not exist for Titan; the checks run in the order
 * maxTokens, temperature, topP, topK, stopSequences and the first failure wins.
 */
module Titan {
  import opened Base
  import opened Parameters

  datatype TitanText = TitanText(
    parameters: TextGenerationParameters,
    converseParameters: ConverseParameters,
    converseFeatures: seq<ConverseFeature>)

  const DefaultConverseFeatures: seq<ConverseFeature> := [TextGeneration, Document]

  /** `init(parameters:features:)`, whose features default to text generation and documents. */
  function NewTitanText(parameters: TextGenerationParameters, features: seq<ConverseFeature> := DefaultConverseFeatures): (t: TitanText)
    ensures t.parameters == parameters && t.converseFeatures == features
    ensures t.converseParameters.temperature == parameters.temperature
    ensures t.converseParameters.maxTokens == parameters.maxTokens
    ensures t.converseParameters.topP == parameters.topP
    ensures t.converseParameters.stopSequences == parameters.stopSequences
    ensures t.converseParameters.maxPromptSize == parameters.maxPromptSize
    ensures t.converseParameters == GetConverseParameters(t)
  {
    TitanText(parameters, ConverseParametersOf(parameters), features)
  }

  /** `getConverseParameters`: derived afresh from the text parameters. */
  function GetConverseParameters(t: TitanText): (c: ConverseParameters)
    ensures c.temperature == t.parameters.temperature && c.maxTokens == t.parameters.maxTokens
    ensures c.topP == t.parameters.topP && c.stopSequences == t.parameters.stopSequences
    ensures c.maxPromptSize == t.parameters.maxPromptSize
  {
    ConverseParametersOf(t.parameters)
  }

  /** What the initializer stores and what the getter derives agree; by default neither vision nor tool use is declared. */
  lemma ConverseParametersAgree(parameters: TextGenerationParameters, features: seq<ConverseFeature>)
    ensures GetConverseParameters(NewTitanText(parameters, features)) == NewTitanText(parameters, features).converseParameters
    ensures NewTitanText(parameters).converseFeatures == [TextGeneration, Document]
    ensures Vision !in NewTitanText(parameters).converseFeatures && ToolUse !in NewTitanText(parameters).converseFeatures
  {
  }

  datatype TitanRequestBody = TitanRequestBody(
    prompt: string,
    maxTokens: int,
    temperature: real,
    topP: real,
    stopSequences: seq<string>)

  /** The effective value of each knob: the caller's, else the family's default. */
  function MaxTokens(t: TitanText, k: TextKnobs): Option<int> { Resolve(k.maxTokens, t.parameters.maxTokens.defaultValue) }
  function Temperature(t: TitanText, k: TextKnobs): Option<real> { Resolve(k.temperature, t.parameters.temperature.defaultValue) }
  function TopP(t: TitanText, k: TextKnobs): Option<real> { Resolve(k.topP, t.parameters.topP.defaultValue) }
  function StopSequences(t: TitanText, k: TextKnobs): Option<seq<string>> { Resolve(k.stopSequences, t.parameters.stopSequences.defaultValue) }

  /** `getTextRequestBody`. */
  function TextRequestBody(t: TitanText, prompt: string, k: TextKnobs): (r: Result<TitanRequestBody>)
    ensures MaxTokens(t, k).None? ==> r == Failure(NotFound("maxTokens"))
    ensures MaxTokens(t, k).Some? && Temperature(t, k).None? ==> r == Failure(NotFound("temperature"))
    ensures MaxTokens(t, k).Some? && Temperature(t, k).Some? && TopP(t, k).None? ==> r == Failure(NotFound("topP"))
    ensures MaxTokens(t, k).Some? && Temperature(t, k).Some? && TopP(t, k).Some? && k.topK.Some? ==>
      r == Failure(NotSupported("topK"))
    ensures MaxTokens(t, k).Some? && Temperature(t, k).Some? && TopP(t, k).Some? && k.topK.None? && StopSequences(t, k).None? ==>
      r == Failure(NotFound("stopSequences"))
    ensures r.Success? <==>
      MaxTokens(t, k).Some? && Temperature(t, k).Some? && TopP(t, k).Some? && k.topK.None? && StopSequences(t, k).Some?
    ensures r.Success? ==>
      && r.value.prompt == prompt
      && Some(r.value.maxTokens) == MaxTokens(t, k)
      && Some(r.value.temperature) == Temperature(t, k)
      && Some(r.value.topP) == TopP(t, k)
      && Some(r.value.stopSequences) == StopSequences(t, k)
  {
    match MaxTokens(t, k)
    case None => Failure(NotFound("maxTokens"))
    case Some(maxTokens) =>
      match Temperature(t, k)
      case None => Failure(NotFound("temperature"))
      case Some(temperature) =>
        match TopP(t, k)
        case None => Failure(NotFound("topP"))
        case Some(topP) =>
          if k.topK.Some? then Failure(NotSupported("topK"))
          else
            match StopSequences(t, k)
            case None => Failure(NotFound("stopSequences"))
            case Some(stopSequences) => Success(TitanRequestBody(prompt, maxTokens, temperature, topP, stopSequences))
  }

  /** The knobs a body was built from, written out as explicit overrides. */
  function KnobsOf(b: TitanRequestBody): TextKnobs {
    TextKnobs(Some(b.maxTokens), Some(b.temperature), Some(b.topP), None, Some(b.stopSequences))
  }

  /** With every knob given explicitly, the family's defaults play no part. */
  lemma ExplicitKnobsIgnoreDefaults(t1: TitanText, t2: TitanText, prompt: string, k: TextKnobs)
    requires k.maxTokens.Some? && k.temperature.Some? && k.topP.Some? && k.stopSequences.Some?
    ensures TextRequestBody(t1, prompt, k) == TextRequestBody(t2, prompt, k)
  {
  }

  /** Feeding a built body's values back in as explicit knobs, for any Titan parameters, rebuilds the same body. */
  lemma RebuildIsFixedPoint(t: TitanText, t': TitanText, prompt: string, k: TextKnobs)
    requires TextRequestBody(t, prompt, k).Success?
    ensures TextRequestBody(t', prompt, KnobsOf(TextRequestBody(t, prompt, k).value)) == TextRequestBody(t, prompt, k)
  {
  }

  /** Even a topK of zero is refused once the first three knobs resolve. */
  lemma AnyTopKRefused(t: TitanText, prompt: string, maxTokens: int, temperature: real, topP: real)
    ensures TextRequestBody(t, prompt, TextKnobs(Some(maxTokens), Some(temperature), Some(topP), Some(0), None))
      == Failure(NotSupported("topK"))
  {
  }
}
