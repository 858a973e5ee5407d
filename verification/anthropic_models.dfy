/**
 * The static table of Claude models of
 * backend/Sources/SwiftBedrockTypes/Anthropic/AnthropicBedrockModels.swift.
 * Every entry is served by the one Anthropic adapter.
 */
module AnthropicModels {
  import opened Base
  import opened Parameters
  import opened Anthropic
  import opened Models

  /**
   * The convenience initializer the table uses. The four oldest entries leave
   * maxTokens out; they get a supported knob with no bounds and no default.
   */
  function ClaudeParameters(
    temperature: Parameter<real>, maxTokens: Parameter<int>, topP: Parameter<real>, topK: Parameter<int>,
    maxPromptSize: int, maxStopSequences: int, defaultStopSequences: seq<string>): TextGenerationParameters
  {
    TextGenerationParameters(
      temperature, maxTokens, topP, topK,
      StopSequenceParams(Some(maxStopSequences), Some(defaultStopSequences), true),
      Some(maxPromptSize))
  }

  const Instant: BedrockModel := BedrockModel(
    "anthropic.claude-instant-v1",
    TextModality(AnthropicAdapter(AnthropicText(ClaudeParameters(
      temperature := Bounded(0.0, 1.0, 1.0),
      maxTokens := Unconstrained(),
      topP := Bounded(0.0, 1.0, 0.999),
      topK := Bounded(0, 500, 0),
      maxPromptSize := 200_000,
      maxStopSequences := 8191,
      defaultStopSequences := [])))))

  const ClaudeV1: BedrockModel := BedrockModel(
    "anthropic.claude-v1",
    TextModality(AnthropicAdapter(AnthropicText(ClaudeParameters(
      temperature := Bounded(0.0, 1.0, 1.0),
      maxTokens := Unconstrained(),
      topP := Bounded(0.0, 1.0, 0.999),
      topK := Bounded(0, 500, 0),
      maxPromptSize := 200_000,
      maxStopSequences := 8191,
      defaultStopSequences := [])))))

  const ClaudeV2: BedrockModel := BedrockModel(
    "anthropic.claude-v2",
    TextModality(AnthropicAdapter(AnthropicText(ClaudeParameters(
      temperature := Bounded(0.0, 1.0, 1.0),
      maxTokens := Unconstrained(),
      topP := Bounded(0.0, 1.0, 0.999),
      topK := Bounded(0, 500, 0),
      maxPromptSize := 200_000,
      maxStopSequences := 8191,
      defaultStopSequences := [])))))

  const ClaudeV2_1: BedrockModel := BedrockModel(
    "anthropic.claude-v2:1",
    TextModality(AnthropicAdapter(AnthropicText(ClaudeParameters(
      temperature := Bounded(0.0, 1.0, 1.0),
      maxTokens := Unconstrained(),
      topP := Bounded(0.0, 1.0, 0.999),
      topK := Bounded(0, 500, 0),
      maxPromptSize := 200_000,
      maxStopSequences := 8191,
      defaultStopSequences := [])))))

  const ClaudeV3Opus: BedrockModel := BedrockModel(
    "us.anthropic.claude-3-opus-20240229-v1:0",
    TextModality(AnthropicAdapter(AnthropicText(ClaudeParameters(
      temperature := Bounded(0.0, 1.0, 1.0),
      maxTokens := Bounded(1, 4_096, 4_096),
      topP := Bounded(0.0, 1.0, 0.999),
      topK := Bounded(0, 500, 0),
      maxPromptSize := 200_000,
      maxStopSequences := 8191,
      defaultStopSequences := [])))))

  const ClaudeV3Haiku: BedrockModel := BedrockModel(
    "anthropic.claude-3-haiku-20240307-v1:0",
    TextModality(AnthropicAdapter(AnthropicText(ClaudeParameters(
      temperature := Bounded(0.0, 1.0, 1.0),
      maxTokens := Bounded(1, 4_096, 4_096),
      topP := Bounded(0.0, 1.0, 0.999),
      topK := Bounded(0, 500, 0),
      maxPromptSize := 200_000,
      maxStopSequences := 8191,
      defaultStopSequences := [])))))

  const ClaudeV3_5Haiku: BedrockModel := BedrockModel(
    "us.anthropic.claude-3-5-haiku-20241022-v1:0",
    TextModality(AnthropicAdapter(AnthropicText(ClaudeParameters(
      temperature := Bounded(0.0, 1.0, 1.0),
      maxTokens := Bounded(1, 8_192, 8_192),
      topP := Bounded(0.0, 1.0, 0.999),
      topK := Bounded(0, 500, 0),
      maxPromptSize := 200_000,
      maxStopSequences := 8191,
      defaultStopSequences := [])))))

  const ClaudeV3_5Sonnet: BedrockModel := BedrockModel(
    "us.anthropic.claude-3-5-sonnet-20240620-v1:0",
    TextModality(AnthropicAdapter(AnthropicText(ClaudeParameters(
      temperature := Bounded(0.0, 1.0, 1.0),
      maxTokens := Bounded(1, 8_192, 8_192),
      topP := Bounded(0.0, 1.0, 0.999),
      topK := Bounded(0, 500, 0),
      maxPromptSize := 200_000,
      maxStopSequences := 8191,
      defaultStopSequences := [])))))

  const ClaudeV3_5SonnetV2: BedrockModel := BedrockModel(
    "us.anthropic.claude-3-5-sonnet-20241022-v2:0",
    TextModality(AnthropicAdapter(AnthropicText(ClaudeParameters(
      temperature := Bounded(0.0, 1.0, 1.0),
      maxTokens := Bounded(1, 8_192, 8_192),
      topP := Bounded(0.0, 1.0, 0.999),
      topK := Bounded(0, 500, 0),
      maxPromptSize := 200_000,
      maxStopSequences := 8191,
      defaultStopSequences := [])))))

  const ClaudeV3_7Sonnet: BedrockModel := BedrockModel(
    "us.anthropic.claude-3-7-sonnet-20250219-v1:0",
    TextModality(AnthropicAdapter(AnthropicText(ClaudeParameters(
      temperature := Bounded(0.0, 1.0, 1.0),
      maxTokens := Bounded(1, 8_192, 8_192),
      topP := Bounded(0.0, 1.0, 0.999),
      topK := Bounded(0, 500, 0),
      maxPromptSize := 200_000,
      maxStopSequences := 8191,
      defaultStopSequences := [])))))

  /** The table in declaration order. */
  const All: seq<BedrockModel> := [
    Instant, ClaudeV1, ClaudeV2, ClaudeV2_1, ClaudeV3Opus, ClaudeV3Haiku,
    ClaudeV3_5Haiku, ClaudeV3_5Sonnet, ClaudeV3_5SonnetV2, ClaudeV3_7Sonnet]

  /** Every entry is served by the Anthropic adapter. */
  predicate IsClaude(m: BedrockModel) {
    m.modality.TextModality? && m.modality.text.AnthropicAdapter?
  }

  /** Temperature, topP, topK, prompt size and stop sequences are the same for every entry. */
  lemma SharedConstraints()
    ensures forall m <- All :: IsClaude(m)
    ensures forall m <- All :: IsClaude(m) && TextParameters(m.modality.text).temperature == Bounded(0.0, 1.0, 1.0)
    ensures forall m <- All :: IsClaude(m) && TextParameters(m.modality.text).topP == Bounded(0.0, 1.0, 0.999)
    ensures forall m <- All :: IsClaude(m) && TextParameters(m.modality.text).topK == Bounded(0, 500, 0)
    ensures forall m <- All :: IsClaude(m) && TextParameters(m.modality.text).maxPromptSize == Some(200_000)
    ensures forall m <- All :: IsClaude(m) && TextParameters(m.modality.text).stopSequences == StopSequenceParams(Some(8191), Some([]), true)
  {
    forall m <- All
      ensures IsClaude(m) && SharesClaudeConstraints(TextParameters(m.modality.text))
    {
      var i :| 0 <= i < |All| && All[i] == m;
      EntryConstraints(i);
    }
  }

  /** Every field but maxTokens has the values all Claude entries share. */
  predicate SharesClaudeConstraints(p: TextGenerationParameters) {
    && p.temperature == Bounded(0.0, 1.0, 1.0)
    && p.topP == Bounded(0.0, 1.0, 0.999)
    && p.topK == Bounded(0, 500, 0)
    && p.maxPromptSize == Some(200_000)
    && p.stopSequences == StopSequenceParams(Some(8191), Some([]), true)
  }

  /** Entry `i` is a Claude model with the shared constraints. */
  lemma EntryConstraints(i: nat)
    requires i < |All|
    ensures IsClaude(All[i]) && SharesClaudeConstraints(TextParameters(All[i].modality.text))
  {
  }

  /** The maxTokens ceiling by generation: none declared, then 4096, then 8192. */
  lemma MaxTokensCeilings()
    ensures |All| == 10
    ensures forall i :: 0 <= i < 4 ==> TextParameters(All[i].modality.text).maxTokens == Unconstrained()
    ensures forall i :: 4 <= i < 6 ==> TextParameters(All[i].modality.text).maxTokens == Bounded(1, 4_096, 4_096)
    ensures forall i :: 6 <= i < 10 ==> TextParameters(All[i].modality.text).maxTokens == Bounded(1, 8_192, 8_192)
  {
  }

  /** The shared constraints are well formed whichever maxTokens constraint comes with them. */
  lemma SharedConstraintsWellFormed(maxTokens: Parameter<int>)
    requires IntDefaultWithinBounds(maxTokens) && BareWhenUnsupported(maxTokens)
    ensures WellFormed(ClaudeParameters(Bounded(0.0, 1.0, 1.0), maxTokens, Bounded(0.0, 1.0, 0.999), Bounded(0, 500, 0), 200_000, 8191, []))
  {
  }

  /** Every declared default lies within its declared bounds. */
  lemma DefaultsWithinBounds()
    ensures forall m <- All :: IsClaude(m) && WellFormed(TextParameters(m.modality.text))
  {
    SharedConstraintsWellFormed(Unconstrained());
    SharedConstraintsWellFormed(Bounded(1, 4_096, 4_096));
    SharedConstraintsWellFormed(Bounded(1, 8_192, 8_192));
  }

  /** No two entries share an id. */
  lemma DistinctIds()
    ensures forall i, j :: 0 <= i < j < |All| ==> All[i].id != All[j].id
  {
  }

  /** Without an explicit maxTokens, the oldest models send none at all, while the Claude 3 models send their ceiling. */
  lemma DefaultMaxTokensSent(prompt: string)
    ensures Anthropic.TextRequestBody(Instant.modality.text.anthropic, prompt, TextKnobs(None, None, None, None, None)).value.maxTokens == None
    ensures Anthropic.TextRequestBody(ClaudeV3Opus.modality.text.anthropic, prompt, TextKnobs(None, None, None, None, None)).value.maxTokens == Some(4_096)
    ensures Anthropic.TextRequestBody(ClaudeV3_7Sonnet.modality.text.anthropic, prompt, TextKnobs(None, None, None, None, None)).value.maxTokens == Some(8_192)
  {
  }
}
