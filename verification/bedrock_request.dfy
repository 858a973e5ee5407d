/**
 * `BedrockRequest` of backend/Sources/SwiftBedrockService/BedrockRequest.swift:
 * factories that ask the model for the right modality and let it build the
 * body, and the conversion to the SDK's `InvokeModelInput`. The image
 * modality's body builders and the JSON encoder are declared outside the
 * modelled files and are passed in.
 */
module BedrockRequests {
  import opened Base
  import opened Parameters
  import opened JsonValue
  import opened Models

  /** `ContentType`; its only case is JSON. */
  datatype ContentType = JsonContent

  /** `headerValue`. */
  function HeaderValue(c: ContentType): string {
    "application/json"
  }

  /** The body a request carries: a text family's body, or what an image modality built. */
  datatype RequestBody = TextBody(text: TextRequestBody) | ImageBody(image: Json)

  datatype BedrockRequest = BedrockRequest(model: BedrockModel, contentType: ContentType, accept: ContentType, body: RequestBody)

  /** `getTextToImageRequestBody` and `getImageVariationRequestBody` of an image modality. */
  datatype ImageBodyBuilders = ImageBodyBuilders(
    textToImage: (ImageGenerator, string, int) -> Result<Json>,
    imageVariation: (ImageGenerator, string, string, real, int) -> Result<Json>)

  /** The private memberwise initializer: content type and accept default to JSON. */
  function NewRequest(model: BedrockModel, body: RequestBody): (r: BedrockRequest)
    ensures r.model == model && r.body == body
    ensures r.contentType == JsonContent && r.accept == JsonContent
  {
    BedrockRequest(model, JsonContent, JsonContent, body)
  }

  /** A text request with any combination of knobs: the text modality builds the body. */
  function TextRequest(model: BedrockModel, prompt: string, k: TextKnobs): (r: Result<BedrockRequest>)
    ensures GetTextModality(model).Failure? ==> r == Failure(GetTextModality(model).error)
    ensures GetTextModality(model).Success? ==>
      (r.Success? <==> Models.TextBody(GetTextModality(model).value, prompt, k).Success?)
    ensures r.Failure? ==> r.error.InvalidModality? || r.error.NotFound? || r.error.NotSupported?
    ensures r.Success? ==>
      && r.value == NewRequest(model, TextBody(Models.TextBody(GetTextModality(model).value, prompt, k).value))
      && BodyPrompt(r.value.body.text) == prompt
  {
    var adapter :- GetTextModality(model);
    var body :- Models.TextBody(adapter, prompt, k);
    PromptPassesThrough(adapter, prompt, k);
    Success(NewRequest(model, TextBody(body)))
  }

  /** `createTextRequest(model:prompt:maxTokens:temperature:)`: the other knobs are left to the family. */
  function CreateTextRequest(model: BedrockModel, prompt: string, maxTokens: int, temperature: real): (r: Result<BedrockRequest>)
    ensures !model.modality.TextModality? ==> r.Failure? && r.error.InvalidModality?
    ensures r == TextRequest(model, prompt, TextKnobs(Some(maxTokens), Some(temperature), None, None, None))
  {
    TextRequest(model, prompt, TextKnobs(Some(maxTokens), Some(temperature), None, None, None))
  }

  /** `createTextToImageRequest`: prompt and image count go to the image modality unchanged. */
  function CreateTextToImageRequest(b: ImageBodyBuilders, model: BedrockModel, prompt: string, nrOfImages: int): (r: Result<BedrockRequest>)
    ensures GetImageModality(model).Failure? ==> r == Failure(GetImageModality(model).error)
    ensures GetImageModality(model).Success? ==>
      (match b.textToImage(GetImageModality(model).value, prompt, nrOfImages)
       case Failure(e) => r == Failure(e)
       case Success(body) => r == Success(NewRequest(model, ImageBody(body))))
  {
    var modality :- GetImageModality(model);
    var body :- b.textToImage(modality, prompt, nrOfImages);
    Success(NewRequest(model, ImageBody(body)))
  }

  /** `createImageVariationRequest`: prompt, image, similarity and image count go to the image modality unchanged. */
  function CreateImageVariationRequest(
    b: ImageBodyBuilders, model: BedrockModel, prompt: string, image: string, similarity: real, nrOfImages: int): (r: Result<BedrockRequest>)
    ensures GetImageModality(model).Failure? ==> r == Failure(GetImageModality(model).error)
    ensures GetImageModality(model).Success? ==>
      (match b.imageVariation(GetImageModality(model).value, prompt, image, similarity, nrOfImages)
       case Failure(e) => r == Failure(e)
       case Success(body) => r == Success(NewRequest(model, ImageBody(body))))
  {
    var modality :- GetImageModality(model);
    var body :- b.imageVariation(modality, prompt, image, similarity, nrOfImages);
    Success(NewRequest(model, ImageBody(body)))
  }

  datatype InvokeModelInput = InvokeModelInput(accept: string, body: Bytes, contentType: string, modelId: string)

  /** `getInvokeModelInput`: any failure of the encoder becomes an `encodingError`. */
  function GetInvokeModelInput(req: BedrockRequest, encode: RequestBody -> Option<Bytes>): (r: Result<InvokeModelInput>)
    ensures r.Failure? <==> encode(req.body).None?
    ensures r.Failure? ==> r.error.EncodingError?
    ensures r.Success? ==>
      && r.value.modelId == req.model.id
      && r.value.accept == HeaderValue(req.accept)
      && r.value.contentType == HeaderValue(req.contentType)
      && Some(r.value.body) == encode(req.body)
  {
    match encode(req.body)
    case None => Failure(EncodingError("request body"))
    case Some(data) => Success(InvokeModelInput(HeaderValue(req.accept), data, HeaderValue(req.contentType), req.model.id))
  }

  /** What is sent is what was built: with a decoder that inverts the encoder, the input's bytes decode to the request's body. */
  lemma InputCarriesBody(req: BedrockRequest, encode: RequestBody -> Option<Bytes>, decode: Bytes -> Option<RequestBody>)
    requires forall body :: encode(body).Some? ==> decode(encode(body).value) == Some(body)
    requires GetInvokeModelInput(req, encode).Success?
    ensures decode(GetInvokeModelInput(req, encode).value.body) == Some(req.body)
    ensures GetInvokeModelInput(req, encode).value.contentType == "application/json"
  {
  }

  /** A text request for a model without a text modality never reaches the family adapters. */
  lemma TextRequestNeedsTextModality(model: BedrockModel, prompt: string, k: TextKnobs)
    requires model.modality.ImageModality?
    ensures TextRequest(model, prompt, k) == Failure(InvalidModality(model.id))
  {
  }
}
