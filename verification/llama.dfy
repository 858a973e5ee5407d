/**
 * The Llama text adapter of
 * backend/Sources/SwiftBedrockTypes/Models/Llama/Llama.swift: topK and stop
 * sequences are refused outright (topK first), the other three knobs are
 * `explicit ?? default` and may stay absent; nothing is range-checked here.
 */
module Llama {
  import opened Base
  import opened Parameters

  datatype LlamaRequestBody = LlamaRequestBody(
    prompt: string,
    maxTokens: Option<int>,
    temperature: Option<real>,
    topP: Option<real>)

  /** `LlamaText.getTextRequestBody`. */
  function TextRequestBody(parameters: TextGenerationParameters, prompt: string, k: TextKnobs): (r: Result<LlamaRequestBody>)
    ensures k.topK.Some? ==> r == Failure(NotSupported("topK"))
    ensures k.topK.None? && k.stopSequences.Some? ==> r == Failure(NotSupported("stopSequences"))
    ensures r.Success? <==> k.topK.None? && k.stopSequences.None?
    ensures r.Success? ==>
      && r.value.prompt == prompt
      && r.value.maxTokens == Resolve(k.maxTokens, parameters.maxTokens.defaultValue)
      && r.value.temperature == Resolve(k.temperature, parameters.temperature.defaultValue)
      && r.value.topP == Resolve(k.topP, parameters.topP.defaultValue)
  {
    if k.topK.Some? then Failure(NotSupported("topK"))
    else if k.stopSequences.Some? then Failure(NotSupported("stopSequences"))
    else Success(LlamaRequestBody(
      prompt,
      Resolve(k.maxTokens, parameters.maxTokens.defaultValue),
      Resolve(k.temperature, parameters.temperature.defaultValue),
      Resolve(k.topP, parameters.topP.defaultValue)))
  }

  function KnobsOf(b: LlamaRequestBody): TextKnobs {
    TextKnobs(b.maxTokens, b.temperature, b.topP, None, None)
  }

  /** An explicit empty list of stop sequences is refused like any other. */
  lemma EmptyStopListRefused(parameters: TextGenerationParameters, prompt: string)
    ensures TextRequestBody(parameters, prompt, TextKnobs(None, None, None, None, Some([])))
      == Failure(NotSupported("stopSequences"))
  {
  }

  /** Values outside the family's bounds pass through: this adapter does no range checking. */
  lemma NoRangeCheck(parameters: TextGenerationParameters, prompt: string, maxTokens: int)
    requires parameters.maxTokens.maxValue == Some(2048) && maxTokens > 2048
    ensures TextRequestBody(parameters, prompt, TextKnobs(Some(maxTokens), None, None, None, None)).Success?
    ensures TextRequestBody(parameters, prompt, TextKnobs(Some(maxTokens), None, None, None, None)).value.maxTokens == Some(maxTokens)
  {
  }

  /** Feeding a built body back in as explicit knobs rebuilds it, whatever the defaults. */
  lemma RebuildIsFixedPoint(parameters: TextGenerationParameters, parameters': TextGenerationParameters, prompt: string, k: TextKnobs)
    requires TextRequestBody(parameters, prompt, k).Success?
    requires var b := TextRequestBody(parameters, prompt, k).value; b.maxTokens.Some? && b.temperature.Some? && b.topP.Some?
    ensures TextRequestBody(parameters', prompt, KnobsOf(TextRequestBody(parameters, prompt, k).value)) == TextRequestBody(parameters, prompt, k)
  {
  }
}
