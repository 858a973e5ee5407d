/**
 * `InvokeModelResponse` of
 * backend/Sources/SwiftBedrockService/InvokeModel/InvokeModelResponse.swift:
 * a response holds either a text body or an image body. Any failure while
 * building one is reported as `invalidSDKResponseBody` carrying the raw
 * bytes; any failure while extracting the result is a `decodingError`. The
 * families' response decoders are declared outside the modelled files (the
 * decoded body is kept as a JSON value) and are passed in.
 */
module InvokeModelResponses {
  import opened Base
  import opened JsonValue
  import opened Models
  import opened BedrockRequests

  datatype TextCompletion = TextCompletion(completion: string)

  datatype ImageGenerationOutput = ImageGenerationOutput(images: seq<string>)

  datatype InvokeModelResponse = InvokeModelResponse(
    model: BedrockModel,
    contentType: ContentType,
    textCompletionBody: Option<Json>,
    imageGenerationBody: Option<Json>)

  /**
   * `getTextResponseBody(from:)` and `getImageResponseBody(from:)` of the
   * modalities, and the extraction the decoded bodies offer (the image one
   * cannot fail).
   */
  datatype ResponseDecoders = ResponseDecoders(
    textResponseBody: (TextAdapter, Bytes) -> Result<Json>,
    imageResponseBody: (ImageGenerator, Bytes) -> Result<Json>,
    textCompletion: Json -> Result<TextCompletion>,
    generatedImage: Json -> ImageGenerationOutput)

  /** `createTextResponse(body:model:)`. */
  function CreateTextResponse(d: ResponseDecoders, data: Bytes, model: BedrockModel): (r: Result<InvokeModelResponse>)
    ensures r.Success? <==> GetTextModality(model).Success? && d.textResponseBody(GetTextModality(model).value, data).Success?
    ensures r.Failure? ==> r.error == InvalidSDKResponseBody(data)
    ensures r.Success? ==> r.value == InvokeModelResponse(
      model, JsonContent, Some(d.textResponseBody(GetTextModality(model).value, data).value), None)
  {
    match GetTextModality(model)
    case Failure(_) => Failure(InvalidSDKResponseBody(data))
    case Success(adapter) =>
      match d.textResponseBody(adapter, data)
      case Failure(_) => Failure(InvalidSDKResponseBody(data))
      case Success(body) => Success(InvokeModelResponse(model, JsonContent, Some(body), None))
  }

  /** `createImageResponse(body:model:)`. */
  function CreateImageResponse(d: ResponseDecoders, data: Bytes, model: BedrockModel): (r: Result<InvokeModelResponse>)
    ensures r.Success? <==> GetImageModality(model).Success? && d.imageResponseBody(GetImageModality(model).value, data).Success?
    ensures r.Failure? ==> r.error == InvalidSDKResponseBody(data)
    ensures r.Success? ==> r.value == InvokeModelResponse(
      model, JsonContent, None, Some(d.imageResponseBody(GetImageModality(model).value, data).value))
  {
    match GetImageModality(model)
    case Failure(_) => Failure(InvalidSDKResponseBody(data))
    case Success(generator) =>
      match d.imageResponseBody(generator, data)
      case Failure(_) => Failure(InvalidSDKResponseBody(data))
      case Success(body) => Success(InvokeModelResponse(model, JsonContent, None, Some(body)))
  }

  /** `getTextCompletion`. */
  function GetTextCompletion(d: ResponseDecoders, response: InvokeModelResponse): (r: Result<TextCompletion>)
    ensures response.textCompletionBody.None? ==> r.Failure?
    ensures r.Failure? ==> r.error.DecodingError?
    ensures r.Success? ==> response.textCompletionBody.Some? && d.textCompletion(response.textCompletionBody.value) == r
    ensures response.textCompletionBody.Some? && d.textCompletion(response.textCompletionBody.value).Success? ==>
      r == d.textCompletion(response.textCompletionBody.value)
    ensures response.textCompletionBody.Some? && d.textCompletion(response.textCompletionBody.value).Failure? ==>
      r == Failure(DecodingError("completion"))
  {
    match response.textCompletionBody
    case None => Failure(DecodingError("no text completion body"))
    case Some(body) =>
      match d.textCompletion(body)
      case Failure(_) => Failure(DecodingError("completion"))
      case Success(completion) => Success(completion)
  }

  /** `getGeneratedImage`. */
  function GetGeneratedImage(d: ResponseDecoders, response: InvokeModelResponse): (r: Result<ImageGenerationOutput>)
    ensures r.Failure? <==> response.imageGenerationBody.None?
    ensures r.Failure? ==> r.error.DecodingError?
    ensures r.Success? ==> r.value == d.generatedImage(response.imageGenerationBody.value)
  {
    match response.imageGenerationBody
    case None => Failure(DecodingError("no image generation body"))
    case Some(body) => Success(d.generatedImage(body))
  }

  /** A text response has no image to give, and an image response no text. */
  lemma ResponsesHoldOneKind(d: ResponseDecoders, data: Bytes, model: BedrockModel)
    ensures CreateTextResponse(d, data, model).Success? ==>
      GetGeneratedImage(d, CreateTextResponse(d, data, model).value) == Failure(DecodingError("no image generation body"))
    ensures CreateImageResponse(d, data, model).Success? ==>
      GetTextCompletion(d, CreateImageResponse(d, data, model).value) == Failure(DecodingError("no text completion body"))
  {
  }

  /** A model cannot answer in both kinds: text and image responses are never both built from one model. */
  lemma OneKindPerModel(d: ResponseDecoders, data: Bytes, model: BedrockModel)
    ensures !(CreateTextResponse(d, data, model).Success? && CreateImageResponse(d, data, model).Success?)
  {
  }
}
