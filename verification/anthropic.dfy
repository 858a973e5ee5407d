/**
 * The Anthropic text adapter of
 * backend/Sources/SwiftBedrockTypes/Anthropic/Anthropic.swift: all six knobs
 * are `explicit ?? default`, topK and stop sequences included, and building
 * the body never fails.
 */
module Anthropic {
  import opened Base
  import opened Parameters

  datatype AnthropicText = AnthropicText(parameters: TextGenerationParameters)

  datatype AnthropicRequestBody = AnthropicRequestBody(
    prompt: string,
    maxTokens: Option<int>,
    temperature: Option<real>,
    topP: Option<real>,
    topK: Option<int>,
    stopSequences: Option<seq<string>>)

  /** `getParameters`. */
  function GetParameters(a: AnthropicText): (p: TextGenerationParameters)
    ensures AnthropicText(p) == a
  {
    a.parameters
  }

  /** `getTextRequestBody`: declared as throwing, but no input makes it throw. */
  function TextRequestBody(a: AnthropicText, prompt: string, k: TextKnobs): (r: Result<AnthropicRequestBody>)
    ensures r.Success?
    ensures r.value.prompt == prompt
    ensures r.value.maxTokens == Resolve(k.maxTokens, a.parameters.maxTokens.defaultValue)
    ensures r.value.temperature == Resolve(k.temperature, a.parameters.temperature.defaultValue)
    ensures r.value.topP == Resolve(k.topP, a.parameters.topP.defaultValue)
    ensures r.value.topK == Resolve(k.topK, a.parameters.topK.defaultValue)
    ensures r.value.stopSequences == Resolve(k.stopSequences, a.parameters.stopSequences.defaultValue)
  {
    Success(AnthropicRequestBody(
      prompt,
      Resolve(k.maxTokens, a.parameters.maxTokens.defaultValue),
      Resolve(k.temperature, a.parameters.temperature.defaultValue),
      Resolve(k.topP, a.parameters.topP.defaultValue),
      Resolve(k.topK, a.parameters.topK.defaultValue),
      Resolve(k.stopSequences, a.parameters.stopSequences.defaultValue)))
  }

  function KnobsOf(b: AnthropicRequestBody): TextKnobs {
    TextKnobs(b.maxTokens, b.temperature, b.topP, b.topK, b.stopSequences)
  }

  /** Explicit values always reach the body: an explicit topK or stop list is kept, not refused. */
  lemma ExplicitValuesKept(a: AnthropicText, prompt: string, k: TextKnobs)
    requires k.topK.Some? && k.stopSequences.Some?
    ensures TextRequestBody(a, prompt, k).value.topK == k.topK
    ensures TextRequestBody(a, prompt, k).value.stopSequences == k.stopSequences
  {
  }

  /** Resolving twice is resolving once: the body rebuilt from its own values is the same body. */
  lemma RebuildIsFixedPoint(a: AnthropicText, prompt: string, k: TextKnobs)
    ensures TextRequestBody(a, prompt, KnobsOf(TextRequestBody(a, prompt, k).value)) == TextRequestBody(a, prompt, k)
  {
  }
}
