/**
 * The request flows of backend/Sources/BedrockService/BedrockService.swift.
 * Everything the flows call that is declared outside the modelled files
 * (the parameter validators, the image request builders, the JSON encoder,
 * the response decoders, the two transport calls, the block conversions and
 * `ConverseResponse.getReply`) is a field of `Env`. The throwing
 * `ConverseResponse(output)` initializer is taken to convert the output's
 * message with `Message(from:)` (`ReadReply`). A transport call either fails or
 * returns an optional body. Each one-shot flow returns a `Trace`: its result
 * and the input it handed to the transport, if it got that far.
 */
module BedrockService {
  import opened Base
  import opened Parameters
  import opened Tools
  import opened Image
  import opened Content
  import opened MessageConversion
  import opened Models
  import opened Titan
  import opened BedrockRequests
  import opened InvokeModelResponses
  import opened ConverseRequests
  import opened ModelSummaries

  /** The image options the image flows take besides the prompt. */
  datatype ImageOptions = ImageOptions(
    negativePrompt: Option<string>,
    nrOfImages: Option<int>,
    cfgScale: Option<real>,
    seed: Option<int>,
    quality: Option<string>,
    resolution: Option<string>)

  /** The Converse options shared by both converse entry points. */
  datatype ConverseOptions = ConverseOptions(
    maxTokens: Option<int>,
    temperature: Option<real>,
    topP: Option<real>,
    stopSequences: Option<seq<string>>,
    systemPrompts: Option<seq<string>>,
    tools: Option<seq<Tool>>)

  /**
   * The collaborators. A validator answers with the first problem it finds,
   * or none.
   */
  datatype Env<!S> = Env(
    validateTextCompletion: (TextAdapter, string, TextKnobs) -> Option<BedrockError>,
    validateImageGeneration: (ImageGenerator, ImageOptions) -> Option<BedrockError>,
    validateTextToImage: (ImageGenerator, string, Option<string>) -> Option<BedrockError>,
    validateImageVariation: (ImageGenerator, seq<string>, string, Option<real>, Option<string>) -> Option<BedrockError>,
    validateConverse: (TitanText, Option<int>, Option<real>, Option<real>, Option<seq<string>>) -> Option<BedrockError>,
    textToImageRequest: (BedrockModel, string, ImageOptions) -> Result<BedrockRequest>,
    imageVariationRequest: (BedrockModel, seq<string>, string, Option<real>, ImageOptions) -> Result<BedrockRequest>,
    encode: RequestBody -> Option<Bytes>,
    invokeModel: InvokeModelInput -> Result<Option<Bytes>>,
    decoders: ResponseDecoders,
    blockToSdk: Content -> Result<S>,
    blockFromSdk: S -> Result<Content>,
    narrow: real -> real,
    converse: ConverseInput<S> -> Result<Option<SdkMessage<S>>>,
    replyText: Message -> string)

  /** A flow's outcome and the input it sent to the transport, if any. */
  datatype Trace<T, I> = Trace(result: Result<T>, sent: Option<I>)

  function NoBody(): BedrockError {
    InvalidSDKResponse("response body")
  }

  /** The body of a transport reply: a transport failure is passed on, and a reply without a body is an error. */
  function ResponseBody(response: Result<Option<Bytes>>): (r: Result<Bytes>)
    ensures response.Failure? ==> r == Failure(response.error)
    ensures response == Success(None) ==> r == Failure(NoBody())
    ensures r.Success? <==> response.Success? && response.value.Some?
    ensures r.Success? ==> r.value == response.value.value
  {
    match response
    case Failure(e) => Failure(e)
    case Success(None) => Failure(NoBody())
    case Success(Some(data)) => Success(data)
  }

  /** Read a text completion out of a transport reply: `createTextResponse`, then `getTextCompletion`. */
  function ReadText<S>(env: Env<S>, model: BedrockModel, response: Result<Option<Bytes>>): (r: Result<TextCompletion>)
    ensures ResponseBody(response).Failure? ==> r == Failure(ResponseBody(response).error)
    ensures ResponseBody(response).Success? && CreateTextResponse(env.decoders, ResponseBody(response).value, model).Failure? ==>
      r == Failure(InvalidSDKResponseBody(ResponseBody(response).value))
    ensures r.Success? ==>
      && ResponseBody(response).Success?
      && CreateTextResponse(env.decoders, ResponseBody(response).value, model).Success?
      && r == GetTextCompletion(env.decoders, CreateTextResponse(env.decoders, ResponseBody(response).value, model).value)
  {
    var data :- ResponseBody(response);
    var decoded :- CreateTextResponse(env.decoders, data, model);
    GetTextCompletion(env.decoders, decoded)
  }

  /** Read generated images out of a transport reply: `createImageResponse`, then `getGeneratedImage`. */
  function ReadImages<S>(env: Env<S>, model: BedrockModel, response: Result<Option<Bytes>>): (r: Result<ImageGenerationOutput>)
    ensures ResponseBody(response).Failure? ==> r == Failure(ResponseBody(response).error)
    ensures ResponseBody(response).Success? && CreateImageResponse(env.decoders, ResponseBody(response).value, model).Failure? ==>
      r == Failure(InvalidSDKResponseBody(ResponseBody(response).value))
    ensures r.Success? ==>
      && ResponseBody(response).Success?
      && CreateImageResponse(env.decoders, ResponseBody(response).value, model).Success?
      && r == GetGeneratedImage(env.decoders, CreateImageResponse(env.decoders, ResponseBody(response).value, model).value)
  {
    var data :- ResponseBody(response);
    var decoded :- CreateImageResponse(env.decoders, data, model);
    GetGeneratedImage(env.decoders, decoded)
  }

  /** A text reply never yields images: reading it as an image response fails. */
  lemma TextReplyIsNoImage<S>(env: Env<S>, model: BedrockModel, data: Bytes)
    requires ReadText(env, model, Success(Some(data))).Success?
    ensures ReadImages(env, model, Success(Some(data))).Failure?
  {
    assert GetTextModality(model).Success?;
  }

  /** The model is a text model and its text validation finds nothing. */
  predicate TextChecksPass<S>(env: Env<S>, prompt: string, model: BedrockModel, k: TextKnobs) {
    GetTextModality(model).Success? && env.validateTextCompletion(GetTextModality(model).value, prompt, k).None?
  }

  /** `completeText`: modality, then validation, then request, input and transport. */
  function CompleteText<S>(env: Env<S>, prompt: string, model: BedrockModel, k: TextKnobs): (t: Trace<TextCompletion, InvokeModelInput>)
    ensures GetTextModality(model).Failure? ==> t == Trace(Failure(GetTextModality(model).error), None)
    ensures GetTextModality(model).Success? && env.validateTextCompletion(GetTextModality(model).value, prompt, k).Some? ==>
      t == Trace(Failure(env.validateTextCompletion(GetTextModality(model).value, prompt, k).value), None)
    ensures TextChecksPass(env, prompt, model, k) ==>
      t == (match TextRequest(model, prompt, k)
            case Failure(e) => Trace(Failure(e), None)
            case Success(request) =>
              match GetInvokeModelInput(request, env.encode)
              case Failure(e) => Trace(Failure(e), None)
              case Success(input) => Trace(ReadText(env, model, env.invokeModel(input)), Some(input)))
    ensures t.sent.Some? ==>
      && GetTextModality(model).Success?
      && env.validateTextCompletion(GetTextModality(model).value, prompt, k).None?
      && TextRequest(model, prompt, k).Success?
      && GetInvokeModelInput(TextRequest(model, prompt, k).value, env.encode) == Success(t.sent.value)
      && t.sent.value.modelId == model.id
    ensures t.sent.Some? && env.invokeModel(t.sent.value) == Success(None) ==> t.result == Failure(NoBody())
    ensures t.result.Success? ==> t.sent.Some? && t.result == ReadText(env, model, env.invokeModel(t.sent.value))
  {
    match GetTextModality(model)
    case Failure(e) => Trace(Failure(e), None)
    case Success(adapter) =>
      match env.validateTextCompletion(adapter, prompt, k)
      case Some(e) => Trace(Failure(e), None)
      case None =>
        match TextRequest(model, prompt, k)
        case Failure(e) => Trace(Failure(e), None)
        case Success(request) =>
          match GetInvokeModelInput(request, env.encode)
          case Failure(e) => Trace(Failure(e), None)
          case Success(input) => Trace(ReadText(env, model, env.invokeModel(input)), Some(input))
  }

  /** The model generates images and the shared image validation finds nothing. */
  predicate ImageChecksPass<S>(env: Env<S>, model: BedrockModel, o: ImageOptions) {
    GetImageModality(model).Success? && env.validateImageGeneration(GetImageModality(model).value, o).None?
  }

  /** `generateImage`: image modality and its validation, text-to-image modality and its validation, then send. */
  function GenerateImage<S>(env: Env<S>, prompt: string, model: BedrockModel, o: ImageOptions): (t: Trace<ImageGenerationOutput, InvokeModelInput>)
    ensures GetImageModality(model).Failure? ==> t == Trace(Failure(GetImageModality(model).error), None)
    ensures GetImageModality(model).Success? && env.validateImageGeneration(GetImageModality(model).value, o).Some? ==>
      t == Trace(Failure(env.validateImageGeneration(GetImageModality(model).value, o).value), None)
    ensures ImageChecksPass(env, model, o) && GetTextToImageModality(model).Failure? ==>
      t == Trace(Failure(GetTextToImageModality(model).error), None)
    ensures (ImageChecksPass(env, model, o) && GetTextToImageModality(model).Success?
      && env.validateTextToImage(GetTextToImageModality(model).value, prompt, o.negativePrompt).Some?) ==>
      t == Trace(Failure(env.validateTextToImage(GetTextToImageModality(model).value, prompt, o.negativePrompt).value), None)
    ensures (ImageChecksPass(env, model, o) && GetTextToImageModality(model).Success?
      && env.validateTextToImage(GetTextToImageModality(model).value, prompt, o.negativePrompt).None?) ==>
      t == (match env.textToImageRequest(model, prompt, o)
            case Failure(e) => Trace(Failure(e), None)
            case Success(request) =>
              match GetInvokeModelInput(request, env.encode)
              case Failure(e) => Trace(Failure(e), None)
              case Success(input) => Trace(ReadImages(env, model, env.invokeModel(input)), Some(input)))
    ensures t.sent.Some? ==>
      && GetImageModality(model).Success?
      && env.validateImageGeneration(GetImageModality(model).value, o).None?
      && GetTextToImageModality(model).Success?
      && env.validateTextToImage(GetTextToImageModality(model).value, prompt, o.negativePrompt).None?
      && env.textToImageRequest(model, prompt, o).Success?
      && GetInvokeModelInput(env.textToImageRequest(model, prompt, o).value, env.encode) == Success(t.sent.value)
    ensures t.sent.Some? && env.invokeModel(t.sent.value) == Success(None) ==> t.result == Failure(NoBody())
    ensures t.result.Success? ==> t.sent.Some? && t.result == ReadImages(env, model, env.invokeModel(t.sent.value))
  {
    match GetImageModality(model)
    case Failure(e) => Trace(Failure(e), None)
    case Success(generator) =>
      match env.validateImageGeneration(generator, o)
      case Some(e) => Trace(Failure(e), None)
      case None =>
        match GetTextToImageModality(model)
        case Failure(e) => Trace(Failure(e), None)
        case Success(textToImage) =>
          match env.validateTextToImage(textToImage, prompt, o.negativePrompt)
          case Some(e) => Trace(Failure(e), None)
          case None =>
            match env.textToImageRequest(model, prompt, o)
            case Failure(e) => Trace(Failure(e), None)
            case Success(request) =>
              match GetInvokeModelInput(request, env.encode)
              case Failure(e) => Trace(Failure(e), None)
              case Success(input) => Trace(ReadImages(env, model, env.invokeModel(input)), Some(input))
  }

  /** `generateImageVariation`: as `generateImage`, with the variation modality and its validation. */
  function GenerateImageVariation<S>(
    env: Env<S>, images: seq<string>, prompt: string, model: BedrockModel, similarity: Option<real>, o: ImageOptions): (t: Trace<ImageGenerationOutput, InvokeModelInput>)
    ensures GetImageModality(model).Failure? ==> t == Trace(Failure(GetImageModality(model).error), None)
    ensures GetImageModality(model).Success? && env.validateImageGeneration(GetImageModality(model).value, o).Some? ==>
      t == Trace(Failure(env.validateImageGeneration(GetImageModality(model).value, o).value), None)
    ensures ImageChecksPass(env, model, o) && GetImageVariationModality(model).Failure? ==>
      t == Trace(Failure(GetImageVariationModality(model).error), None)
    ensures (ImageChecksPass(env, model, o) && GetImageVariationModality(model).Success?
      && env.validateImageVariation(GetImageVariationModality(model).value, images, prompt, similarity, o.negativePrompt).Some?) ==>
      t == Trace(Failure(env.validateImageVariation(GetImageVariationModality(model).value, images, prompt, similarity, o.negativePrompt).value), None)
    ensures (ImageChecksPass(env, model, o) && GetImageVariationModality(model).Success?
      && env.validateImageVariation(GetImageVariationModality(model).value, images, prompt, similarity, o.negativePrompt).None?) ==>
      t == (match env.imageVariationRequest(model, images, prompt, similarity, o)
            case Failure(e) => Trace(Failure(e), None)
            case Success(request) =>
              match GetInvokeModelInput(request, env.encode)
              case Failure(e) => Trace(Failure(e), None)
              case Success(input) => Trace(ReadImages(env, model, env.invokeModel(input)), Some(input)))
    ensures t.sent.Some? ==>
      && GetImageModality(model).Success?
      && env.validateImageGeneration(GetImageModality(model).value, o).None?
      && GetImageVariationModality(model).Success?
      && env.validateImageVariation(GetImageVariationModality(model).value, images, prompt, similarity, o.negativePrompt).None?
      && env.imageVariationRequest(model, images, prompt, similarity, o).Success?
      && GetInvokeModelInput(env.imageVariationRequest(model, images, prompt, similarity, o).value, env.encode) == Success(t.sent.value)
    ensures t.sent.Some? && env.invokeModel(t.sent.value) == Success(None) ==> t.result == Failure(NoBody())
    ensures t.result.Success? ==> t.sent.Some? && t.result == ReadImages(env, model, env.invokeModel(t.sent.value))
  {
    match GetImageModality(model)
    case Failure(e) => Trace(Failure(e), None)
    case Success(generator) =>
      match env.validateImageGeneration(generator, o)
      case Some(e) => Trace(Failure(e), None)
      case None =>
        match GetImageVariationModality(model)
        case Failure(e) => Trace(Failure(e), None)
        case Success(variation) =>
          match env.validateImageVariation(variation, images, prompt, similarity, o.negativePrompt)
          case Some(e) => Trace(Failure(e), None)
          case None =>
            match env.imageVariationRequest(model, images, prompt, similarity, o)
            case Failure(e) => Trace(Failure(e), None)
            case Success(request) =>
              match GetInvokeModelInput(request, env.encode)
              case Failure(e) => Trace(Failure(e), None)
              case Success(input) => Trace(ReadImages(env, model, env.invokeModel(input)), Some(input))
  }

  /** The reply the SDK's output decodes to; a missing output is an `invalidSDKResponse`. */
  function ReadReply<S>(env: Env<S>, output: Result<Option<SdkMessage<S>>>): (r: Result<Message>)
    ensures output.Failure? ==> r == Failure(output.error)
    ensures output == Success(None) ==> r == Failure(InvalidSDKResponse("output"))
    ensures output.Success? && output.value.Some? ==> r == MessageFromSdk(output.value.value, env.blockFromSdk)
  {
    match output
    case Failure(e) => Failure(e)
    case Success(None) => Failure(InvalidSDKResponse("output"))
    case Success(Some(m)) => MessageFromSdk(m, env.blockFromSdk)
  }

  /** A reply the service encoded with block conversions that round-trip is read back as the same message. */
  lemma ReplyRoundTrip<S>(env: Env<S>, m: Message)
    requires forall c :: c in m.content && env.blockToSdk(c).Success? ==> env.blockFromSdk(env.blockToSdk(c).value) == Success(c)
    requires MessageToSdk(m, env.blockToSdk).Success?
    ensures ReadReply(env, Success(Some(MessageToSdk(m, env.blockToSdk).value))) == Success(m)
  {
    MessageRoundTrip(m, env.blockToSdk, env.blockFromSdk);
  }

  /** The model has a Converse modality and the Converse validation finds nothing. */
  predicate ConverseChecksPass<S>(env: Env<S>, model: BedrockModel, o: ConverseOptions) {
    GetConverseModality(model).Success?
    && env.validateConverse(GetConverseModality(model).value, o.maxTokens, o.temperature, o.topP, o.stopSequences).None?
  }

  /** `converse(with:conversation:…)`: modality and validation before the request is built and sent. */
  function ConverseConversation<S>(env: Env<S>, model: BedrockModel, conversation: History, o: ConverseOptions): (t: Trace<Message, ConverseInput<S>>)
    ensures GetConverseModality(model).Failure? ==> t == Trace(Failure(GetConverseModality(model).error), None)
    ensures (GetConverseModality(model).Success?
      && env.validateConverse(GetConverseModality(model).value, o.maxTokens, o.temperature, o.topP, o.stopSequences).Some?) ==>
      t == Trace(Failure(env.validateConverse(GetConverseModality(model).value, o.maxTokens, o.temperature, o.topP, o.stopSequences).value), None)
    ensures ConverseChecksPass(env, model, o) ==>
      t == (match GetConverseInput(NewConverseRequest(model, conversation, o.maxTokens, o.temperature, o.topP, o.stopSequences, o.systemPrompts),
                                   env.blockToSdk, env.narrow)
            case Failure(e) => Trace(Failure(e), None)
            case Success(input) => Trace(ReadReply(env, env.converse(input)), Some(input)))
    ensures t.sent.Some? ==>
      && GetConverseModality(model).Success?
      && env.validateConverse(GetConverseModality(model).value, o.maxTokens, o.temperature, o.topP, o.stopSequences).None?
      && GetConverseInput(NewConverseRequest(model, conversation, o.maxTokens, o.temperature, o.topP, o.stopSequences, o.systemPrompts),
           env.blockToSdk, env.narrow) == Success(t.sent.value)
      && t.sent.value.modelId == model.id
      && |t.sent.value.messages| == |conversation|
    ensures t.sent.Some? && env.converse(t.sent.value) == Success(None) ==> t.result == Failure(InvalidSDKResponse("output"))
    ensures t.result.Success? ==> t.sent.Some? && t.result == ReadReply(env, env.converse(t.sent.value))
  {
    match GetConverseModality(model)
    case Failure(e) => Trace(Failure(e), None)
    case Success(modality) =>
      match env.validateConverse(modality, o.maxTokens, o.temperature, o.topP, o.stopSequences)
      case Some(e) => Trace(Failure(e), None)
      case None =>
        var request := NewConverseRequest(model, conversation, o.maxTokens, o.temperature, o.topP, o.stopSequences, o.systemPrompts);
        match GetConverseInput(request, env.blockToSdk, env.narrow)
        case Failure(e) => Trace(Failure(e), None)
        case Success(input) => Trace(ReadReply(env, env.converse(input)), Some(input))
  }

  /** Both an image format and image bytes are given. */
  predicate HasImage(imageFormat: Option<ImageFormat>, imageBytes: Option<string>) {
    imageFormat.Some? && imageBytes.Some?
  }

  /** Tools are only offered, and tool results only given, to a model whose Converse modality supports tool use. */
  predicate ToolsAllowed(model: BedrockModel, o: ConverseOptions, toolResult: Option<ToolResultBlock>) {
    (o.tools.None? && toolResult.None?) || HasConverseModality(model, ConverseFeature.ToolUse)
  }

  /** Every guard of `converse(with:prompt:…)` passes, in the order it checks them. */
  predicate PromptAccepted(
    model: BedrockModel, prompt: Option<string>, imageFormat: Option<ImageFormat>, imageBytes: Option<string>,
    history: History, o: ConverseOptions, toolResult: Option<ToolResultBlock>)
  {
    && GetConverseModality(model).Success?
    && ToolsAllowed(model, o, toolResult)
    && (toolResult.Some? ==> o.tools.Some? && LastBlockIsToolUse(history))
    && (toolResult.None? ==> prompt.Some? && (HasImage(imageFormat, imageBytes) ==> HasConverseModality(model, ConverseFeature.Vision)))
  }

  /** The message `converse(with:prompt:…)` appends for the new turn. */
  function TurnMessage(prompt: Option<string>, imageFormat: Option<ImageFormat>, imageBytes: Option<string>, toolResult: Option<ToolResultBlock>): Message
    requires toolResult.Some? || prompt.Some?
  {
    if toolResult.Some? then ToolResultMessage(toolResult.value)
    else if HasImage(imageFormat, imageBytes) then ImagePromptMessage(prompt.value, imageFormat.value, imageBytes.value)
    else PromptMessage(prompt.value)
  }

  /**
   * The guards of `converse(with:prompt:…)`, in the order it checks them:
   * the new turn's message when every guard passes, else the first guard's error.
   */
  method CheckPrompt(
    model: BedrockModel, prompt: Option<string>, imageFormat: Option<ImageFormat>, imageBytes: Option<string>,
    history: History, o: ConverseOptions, toolResult: Option<ToolResultBlock>)
    returns (r: Result<Message>)
    ensures GetConverseModality(model).Failure? ==> r == Failure(GetConverseModality(model).error)
    ensures GetConverseModality(model).Success? && !ToolsAllowed(model, o, toolResult) ==> r.Failure? && r.error.InvalidModality?
    ensures (GetConverseModality(model).Success? && ToolsAllowed(model, o, toolResult) && toolResult.Some? && o.tools.None?) ==>
      r.Failure? && r.error.InvalidPrompt?
    ensures (GetConverseModality(model).Success? && ToolsAllowed(model, o, toolResult) && toolResult.Some? && !LastBlockIsToolUse(history)) ==>
      r.Failure? && r.error.InvalidPrompt?
    ensures (GetConverseModality(model).Success? && ToolsAllowed(model, o, toolResult) && toolResult.None? && prompt.None?) ==>
      r.Failure? && r.error.InvalidPrompt?
    ensures (GetConverseModality(model).Success? && ToolsAllowed(model, o, toolResult) && toolResult.None? && prompt.Some?
             && HasImage(imageFormat, imageBytes) && !HasConverseModality(model, ConverseFeature.Vision)) ==>
      r.Failure? && r.error.InvalidModality?
    ensures r.Success? <==> PromptAccepted(model, prompt, imageFormat, imageBytes, history, o, toolResult)
    ensures r.Success? ==> r.value == TurnMessage(prompt, imageFormat, imageBytes, toolResult)
  {
    // Each early return is taken on a guard that fails, which the asserts record.
    var modality := GetConverseModality(model);
    if modality.Failure? {
      assert !PromptAccepted(model, prompt, imageFormat, imageBytes, history, o, toolResult);
      return Failure(modality.error);
    }
    if o.tools.Some? || toolResult.Some? {
      if !HasConverseModality(model, ConverseFeature.ToolUse) {
        assert !PromptAccepted(model, prompt, imageFormat, imageBytes, history, o, toolResult);
        return Failure(InvalidModality("This model does not support converse tool."));
      }
    }
    if toolResult.Some? {
      if o.tools.None? {
        assert !PromptAccepted(model, prompt, imageFormat, imageBytes, history, o, toolResult);
        return Failure(InvalidPrompt("Tool result is defined but tools are not."));
      }
      if !LastBlockIsToolUse(history) {
        assert !PromptAccepted(model, prompt, imageFormat, imageBytes, history, o, toolResult);
        return Failure(InvalidPrompt("Tool result is defined but last message is not tool use."));
      }
      return Success(ToolResultMessage(toolResult.value));
    }
    if prompt.None? {
      assert !PromptAccepted(model, prompt, imageFormat, imageBytes, history, o, toolResult);
      return Failure(InvalidPrompt("Prompt is not defined."));
    }
    if HasImage(imageFormat, imageBytes) {
      if !HasConverseModality(model, ConverseFeature.Vision) {
        assert !PromptAccepted(model, prompt, imageFormat, imageBytes, history, o, toolResult);
        return Failure(InvalidModality("This model does not support converse vision."));
      }
      return Success(ImagePromptMessage(prompt.value, imageFormat.value, imageBytes.value));
    }
    return Success(PromptMessage(prompt.value));
  }

  /**
   * `converse(with:prompt:…)`: checks the tool and vision rules, appends the
   * new turn to a copy of the history, converses, and appends the reply.
   */
  method ConversePrompt<S>(
    env: Env<S>, model: BedrockModel, prompt: Option<string>, imageFormat: Option<ImageFormat>, imageBytes: Option<string>,
    history: History, o: ConverseOptions, toolResult: Option<ToolResultBlock>)
    returns (r: Result<(string, History)>)
    ensures GetConverseModality(model).Failure? ==> r == Failure(GetConverseModality(model).error)
    ensures GetConverseModality(model).Success? && !ToolsAllowed(model, o, toolResult) ==> r.Failure? && r.error.InvalidModality?
    ensures (GetConverseModality(model).Success? && ToolsAllowed(model, o, toolResult) && toolResult.Some? && o.tools.None?) ==>
      r.Failure? && r.error.InvalidPrompt?
    ensures (GetConverseModality(model).Success? && ToolsAllowed(model, o, toolResult) && toolResult.Some? && !LastBlockIsToolUse(history)) ==>
      r.Failure? && r.error.InvalidPrompt?
    ensures (GetConverseModality(model).Success? && ToolsAllowed(model, o, toolResult) && toolResult.None? && prompt.None?) ==>
      r.Failure? && r.error.InvalidPrompt?
    ensures (GetConverseModality(model).Success? && ToolsAllowed(model, o, toolResult) && toolResult.None? && prompt.Some?
             && HasImage(imageFormat, imageBytes) && !HasConverseModality(model, ConverseFeature.Vision)) ==>
      r.Failure? && r.error.InvalidModality?
    ensures r.Success? ==> PromptAccepted(model, prompt, imageFormat, imageBytes, history, o, toolResult)
    ensures PromptAccepted(model, prompt, imageFormat, imageBytes, history, o, toolResult) ==>
      var turn := TurnMessage(prompt, imageFormat, imageBytes, toolResult);
      var reply := ConverseConversation(env, model, history + [turn], o).result;
      r == if reply.Success? then Success((env.replyText(reply.value), history + [turn, reply.value])) else Failure(reply.error)
    ensures r.Success? ==>
      && (toolResult.Some? || prompt.Some?)
      && (toolResult.Some? ==> o.tools.Some? && LastBlockIsToolUse(history))
      && ToolsAllowed(model, o, toolResult)
      && (toolResult.None? && HasImage(imageFormat, imageBytes) ==> HasConverseModality(model, ConverseFeature.Vision))
      && var turn := TurnMessage(prompt, imageFormat, imageBytes, toolResult);
         var reply := ConverseConversation(env, model, history + [turn], o).result;
         && reply.Success?
         && r.value.1 == history + [turn, reply.value]
         && r.value.0 == env.replyText(reply.value)
  {
    var turn := CheckPrompt(model, prompt, imageFormat, imageBytes, history, o, toolResult);
    if turn.Failure? {
      return Failure(turn.error);
    }
    var messages := history + [turn.value];
    var reply := ConverseConversation(env, model, messages, o).result;
    if reply.Failure? {
      return Failure(reply.error);
    }
    assert messages + [reply.value] == history + [turn.value, reply.value];
    messages := messages + [reply.value];
    return Success((env.replyText(reply.value), messages));
  }

  /** `listModels`: a missing list is an `invalidSDKResponse`; one summary that fails to convert fails the list. */
  method ListModels(response: Result<Option<seq<SdkModelSummary>>>, lookup: string -> Option<BedrockModel>)
    returns (r: Result<seq<ModelSummary>>)
    ensures response.Failure? ==> r == Failure(response.error)
    ensures response == Success(None) ==> r == Failure(InvalidSDKResponse("modelSummaries"))
    ensures response.Success? && response.value.Some? ==>
      r == MapAll(response.value.value, (s: SdkModelSummary) => GetModelSummary(s, lookup))
  {
    if response.Failure? {
      return Failure(response.error);
    }
    if response.value.None? {
      return Failure(InvalidSDKResponse("modelSummaries"));
    }
    var models := response.value.value;
    var convert := (s: SdkModelSummary) => GetModelSummary(s, lookup);
    var modelsInfo: seq<ModelSummary> := [];
    for i := 0 to |models|
      invariant MapAll(models[..i], convert) == Success(modelsInfo)
    {
      var summary := convert(models[i]);
      assert models[..i + 1][..i] == models[..i];
      if summary.Failure? {
        assert MapAll(models[..i + 1], convert) == Failure(summary.error);
        MapAllFailsFromPrefix(models, i + 1, convert);
        return Failure(summary.error);
      }
      modelsInfo := modelsInfo + [summary.value];
    }
    assert models[..|models|] == models;
    return Success(modelsInfo);
  }
}
