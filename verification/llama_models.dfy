/**
 * The static table of Llama models of
 * backend/Sources/SwiftBedrockTypes/Models/Llama/LlamaBedrockModels.swift.
 * The first and the last entry are declared under two names with one id.
 */
module LlamaModels {
  import opened Base
  import opened Parameters
  import opened Models

  /** `StopSequenceParams.notSupported()`: no count, no default. */
  function StopSequencesNotSupported(): StopSequenceParams {
    StopSequenceParams(None, None, false)
  }

  const Llama_3_8bInstruct: BedrockModel := BedrockModel(
    "meta.llama3-8b-instruct-v1:0",
    TextModality(LlamaAdapter(TextGenerationParameters(
      temperature := Bounded(0.0, 1.0, 0.5),
      maxTokens := Bounded(0, 2_048, 512),
      topP := Bounded(0.0, 1.0, 0.9),
      topK := NotSupportedParameter(),
      stopSequences := StopSequencesNotSupported(),
      maxPromptSize := None))))

  const Llama3_70bInstruct: BedrockModel := BedrockModel(
    "meta.llama3-70b-instruct-v1:0",
    TextModality(LlamaAdapter(TextGenerationParameters(
      temperature := Bounded(0.0, 1.0, 0.5),
      maxTokens := Bounded(0, 2_048, 512),
      topP := Bounded(0.0, 1.0, 0.9),
      topK := NotSupportedParameter(),
      stopSequences := StopSequencesNotSupported(),
      maxPromptSize := None))))

  const Llama3_1_8bInstruct: BedrockModel := BedrockModel(
    "us.meta.llama3-1-8b-instruct-v1:0",
    TextModality(LlamaAdapter(TextGenerationParameters(
      temperature := Bounded(0.0, 1.0, 0.5),
      maxTokens := Bounded(0, 2_048, 512),
      topP := Bounded(0.0, 1.0, 0.9),
      topK := NotSupportedParameter(),
      stopSequences := StopSequencesNotSupported(),
      maxPromptSize := None))))

  const Llama3_1_70bInstruct: BedrockModel := BedrockModel(
    "us.meta.llama3-1-70b-instruct-v1:0",
    TextModality(LlamaAdapter(TextGenerationParameters(
      temperature := Bounded(0.0, 1.0, 0.5),
      maxTokens := Bounded(0, 2_048, 512),
      topP := Bounded(0.0, 1.0, 0.9),
      topK := NotSupportedParameter(),
      stopSequences := StopSequencesNotSupported(),
      maxPromptSize := None))))

  const Llama3_2_1bInstruct: BedrockModel := BedrockModel(
    "us.meta.llama3-2-1b-instruct-v1:0",
    TextModality(LlamaAdapter(TextGenerationParameters(
      temperature := Bounded(0.0, 1.0, 0.5),
      maxTokens := Bounded(0, 2_048, 512),
      topP := Bounded(0.0, 1.0, 0.9),
      topK := NotSupportedParameter(),
      stopSequences := StopSequencesNotSupported(),
      maxPromptSize := None))))

  const Llama3_2_3bInstruct: BedrockModel := BedrockModel(
    "us.meta.llama3-2-3b-instruct-v1:0",
    TextModality(LlamaAdapter(TextGenerationParameters(
      temperature := Bounded(0.0, 1.0, 0.5),
      maxTokens := Bounded(0, 2_048, 512),
      topP := Bounded(0.0, 1.0, 0.9),
      topK := NotSupportedParameter(),
      stopSequences := StopSequencesNotSupported(),
      maxPromptSize := None))))

  const Llama3_3_70bInstruct: BedrockModel := BedrockModel(
    "us.meta.llama3-3-70b-instruct-v1:0",
    TextModality(LlamaAdapter(TextGenerationParameters(
      temperature := Bounded(0.0, 1.0, 0.5),
      maxTokens := Bounded(0, 2_048, 512),
      topP := Bounded(0.0, 1.0, 0.9),
      topK := NotSupportedParameter(),
      stopSequences := StopSequencesNotSupported(),
      maxPromptSize := None))))

  const Llama3_8bInstruct: BedrockModel := BedrockModel(
    "meta.llama3-8b-instruct-v1:0",
    TextModality(LlamaAdapter(TextGenerationParameters(
      temperature := Bounded(0.0, 1.0, 0.5),
      maxTokens := Bounded(0, 2_048, 512),
      topP := Bounded(0.0, 1.0, 0.9),
      topK := NotSupportedParameter(),
      stopSequences := StopSequencesNotSupported(),
      maxPromptSize := None))))

  /** The table in declaration order. */
  const All: seq<BedrockModel> := [
    Llama_3_8bInstruct, Llama3_70bInstruct, Llama3_1_8bInstruct, Llama3_1_70bInstruct,
    Llama3_2_1bInstruct, Llama3_2_3bInstruct, Llama3_3_70bInstruct, Llama3_8bInstruct]

  predicate IsLlama(m: BedrockModel) {
    m.modality.TextModality? && m.modality.text.LlamaAdapter?
  }

  /** Every entry has the same constraints; topK and stop sequences are marked not supported. */
  lemma SharedConstraints()
    ensures forall m <- All :: IsLlama(m)
    ensures forall m <- All :: IsLlama(m) && TextParameters(m.modality.text).temperature == Bounded(0.0, 1.0, 0.5)
    ensures forall m <- All :: IsLlama(m) && TextParameters(m.modality.text).maxTokens == Bounded(0, 2_048, 512)
    ensures forall m <- All :: IsLlama(m) && TextParameters(m.modality.text).topP == Bounded(0.0, 1.0, 0.9)
    ensures forall m <- All :: IsLlama(m) && !TextParameters(m.modality.text).topK.isSupported
    ensures forall m <- All :: IsLlama(m) && !TextParameters(m.modality.text).stopSequences.isSupported
    ensures forall m <- All :: IsLlama(m) && TextParameters(m.modality.text).maxPromptSize.None?
  {
    forall m <- All
      ensures IsLlama(m) && TextParameters(m.modality.text) == TextParameters(Llama_3_8bInstruct.modality.text)
    {
      var i :| 0 <= i < |All| && All[i] == m;
      EntryConstraints(i);
    }
  }

  /** Entry `i` is a Llama model with the first entry's parameters. */
  lemma EntryConstraints(i: nat)
    requires i < |All|
    ensures IsLlama(All[i]) && TextParameters(All[i].modality.text) == TextParameters(Llama_3_8bInstruct.modality.text)
  {
  }

  /** The Llama constraints are well formed. */
  lemma LlamaConstraintsWellFormed()
    ensures WellFormed(Llama_3_8bInstruct.modality.text.parameters)
  {
  }

  /** Every declared default lies within its declared bounds. */
  lemma DefaultsWithinBounds()
    ensures forall m <- All :: IsLlama(m) && WellFormed(TextParameters(m.modality.text))
  {
    LlamaConstraintsWellFormed();
  }

  /** The only two entries that share an id are the first and the last, and they are identical. */
  lemma DuplicateId()
    ensures All[0].id == All[7].id == "meta.llama3-8b-instruct-v1:0"
    ensures All[0] == All[7]
    ensures forall i, j :: 0 <= i < j < |All| && All[i].id == All[j].id ==> i == 0 && j == 7
  {
  }
}
