/**
 * A model is an id plus the modality (family adapter) that serves it. The
 * `BedrockModel` type and its modality accessors are declared outside the
 * modelled files; their behaviour here is the one their call sites rely on:
 * asking a model for a capability it lacks is an `invalidModality` error.
 * Image generators are kept abstract: only which of the two image
 * capabilities they offer is recorded.
 */
module Models {
  import opened Base
  import opened Parameters
  import opened Titan
  import opened Llama
  import opened Anthropic

  /** The text families whose adapters are modelled. */
  datatype TextAdapter =
    | AnthropicAdapter(anthropic: AnthropicText)
    | LlamaAdapter(parameters: TextGenerationParameters)
    | TitanAdapter(titan: TitanText)

  datatype ImageGenerator = ImageGenerator(name: string, textToImage: bool, imageVariation: bool)

  datatype Modality = TextModality(text: TextAdapter) | ImageModality(image: ImageGenerator)

  datatype BedrockModel = BedrockModel(id: string, modality: Modality)

  /** The request body a text adapter builds. */
  datatype TextRequestBody =
    | AnthropicBody(anthropic: AnthropicRequestBody)
    | LlamaBody(llama: LlamaRequestBody)
    | TitanBody(titan: TitanRequestBody)

  /** `getTextModality`. */
  function GetTextModality(m: BedrockModel): (r: Result<TextAdapter>)
    ensures r.Success? <==> m.modality.TextModality?
    ensures r.Success? ==> m.modality == TextModality(r.value)
    ensures r.Failure? ==> r.error.InvalidModality?
  {
    if m.modality.TextModality? then Success(m.modality.text) else Failure(InvalidModality(m.id))
  }

  /** `getImageModality`. */
  function GetImageModality(m: BedrockModel): (r: Result<ImageGenerator>)
    ensures r.Success? <==> m.modality.ImageModality?
    ensures r.Success? ==> m.modality == ImageModality(r.value)
    ensures r.Failure? ==> r.error.InvalidModality?
  {
    if m.modality.ImageModality? then Success(m.modality.image) else Failure(InvalidModality(m.id))
  }

  /** `getTextToImageModality`. */
  function GetTextToImageModality(m: BedrockModel): (r: Result<ImageGenerator>)
    ensures r.Success? <==> m.modality.ImageModality? && m.modality.image.textToImage
    ensures r.Success? ==> m.modality == ImageModality(r.value)
    ensures r.Failure? ==> r.error.InvalidModality?
  {
    if m.modality.ImageModality? && m.modality.image.textToImage then Success(m.modality.image)
    else Failure(InvalidModality(m.id))
  }

  /** `getImageVariationModality`. */
  function GetImageVariationModality(m: BedrockModel): (r: Result<ImageGenerator>)
    ensures r.Success? <==> m.modality.ImageModality? && m.modality.image.imageVariation
    ensures r.Success? ==> m.modality == ImageModality(r.value)
    ensures r.Failure? ==> r.error.InvalidModality?
  {
    if m.modality.ImageModality? && m.modality.image.imageVariation then Success(m.modality.image)
    else Failure(InvalidModality(m.id))
  }

  /** `getConverseModality`: of the modelled adapters only Titan speaks the Converse API. */
  function GetConverseModality(m: BedrockModel): (r: Result<TitanText>)
    ensures r.Success? <==> m.modality.TextModality? && m.modality.text.TitanAdapter?
    ensures r.Success? ==> m.modality == TextModality(TitanAdapter(r.value))
    ensures r.Failure? ==> r.error.InvalidModality?
  {
    if m.modality.TextModality? && m.modality.text.TitanAdapter? then Success(m.modality.text.titan)
    else Failure(InvalidModality(m.id))
  }

  /** `hasConverseModality(feature)`. */
  predicate HasConverseModality(m: BedrockModel, feature: ConverseFeature) {
    GetConverseModality(m).Success? && feature in GetConverseModality(m).value.converseFeatures
  }

  /** `getParameters` of each adapter: the parameters it was built with. */
  function TextParameters(adapter: TextAdapter): TextGenerationParameters {
    match adapter
    case AnthropicAdapter(a) => GetParameters(a)
    case LlamaAdapter(p) => p
    case TitanAdapter(t) => t.parameters
  }

  /** `getTextRequestBody`, dispatched to the model's family. */
  function TextBody(adapter: TextAdapter, prompt: string, k: TextKnobs): (r: Result<TextRequestBody>)
    ensures adapter.AnthropicAdapter? ==> r.Success?
    ensures r.Failure? ==> r.error.NotFound? || r.error.NotSupported?
    ensures k.topK.Some? && r.Success? ==> adapter.AnthropicAdapter?
    ensures adapter.AnthropicAdapter? ==> r == Success(AnthropicBody(Anthropic.TextRequestBody(adapter.anthropic, prompt, k).value))
    ensures adapter.LlamaAdapter? ==>
      r == (match Llama.TextRequestBody(adapter.parameters, prompt, k)
            case Failure(e) => Failure(e)
            case Success(body) => Success(LlamaBody(body)))
    ensures adapter.TitanAdapter? ==>
      r == (match Titan.TextRequestBody(adapter.titan, prompt, k)
            case Failure(e) => Failure(e)
            case Success(body) => Success(TitanBody(body)))
  {
    match adapter
    case AnthropicAdapter(a) =>
      Success(AnthropicBody(Anthropic.TextRequestBody(a, prompt, k).value))
    case LlamaAdapter(p) =>
      var body :- Llama.TextRequestBody(p, prompt, k);
      Success(LlamaBody(body))
    case TitanAdapter(t) =>
      var body :- Titan.TextRequestBody(t, prompt, k);
      Success(TitanBody(body))
  }

  /** The prompt reaches every family's body unchanged. */
  function BodyPrompt(b: TextRequestBody): string {
    match b
    case AnthropicBody(a) => a.prompt
    case LlamaBody(l) => l.prompt
    case TitanBody(t) => t.prompt
  }

  lemma PromptPassesThrough(adapter: TextAdapter, prompt: string, k: TextKnobs)
    requires TextBody(adapter, prompt, k).Success?
    ensures BodyPrompt(TextBody(adapter, prompt, k).value) == prompt
  {
  }

  /** Explicit stop sequences are accepted by Anthropic, refused by Llama, and used as given by Titan. */
  lemma StopSequencesByFamily(adapter: TextAdapter, prompt: string, k: TextKnobs)
    requires k.topK.None? && k.stopSequences.Some?
    ensures adapter.AnthropicAdapter? ==> TextBody(adapter, prompt, k).value.anthropic.stopSequences == k.stopSequences
    ensures adapter.LlamaAdapter? ==> TextBody(adapter, prompt, k) == Failure(NotSupported("stopSequences"))
    ensures adapter.TitanAdapter? && TextBody(adapter, prompt, k).Success? ==>
      Some(TextBody(adapter, prompt, k).value.titan.stopSequences) == k.stopSequences
  {
  }
}
