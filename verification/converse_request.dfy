/**
 * `ConverseRequest` of backend/Sources/BedrockService/Converse/ConverseRequest.swift:
 * the messages, an inference configuration that is always present, and the
 * optional system prompts, turned into the SDK's `ConverseInput`. The
 * Double-to-Float narrowing of temperature and topP is passed in as `narrow`.
 */
module ConverseRequests {
  import opened Base
  import opened Content
  import opened MessageConversion
  import opened Models

  datatype InferenceConfig = InferenceConfig(
    maxTokens: Option<int>,
    temperature: Option<real>,
    topP: Option<real>,
    stopSequences: Option<seq<string>>)

  datatype ConverseRequest = ConverseRequest(
    model: BedrockModel,
    messages: seq<Message>,
    inferenceConfig: Option<InferenceConfig>,
    systemPrompts: Option<seq<string>>)

  /** `init(model:messages:maxTokens:temperature:topP:stopSequences:systemPrompts:)`. */
  function NewConverseRequest(
    model: BedrockModel, messages: seq<Message>, maxTokens: Option<int>, temperature: Option<real>,
    topP: Option<real>, stopSequences: Option<seq<string>>, systemPrompts: Option<seq<string>>): (r: ConverseRequest)
    ensures r.inferenceConfig.Some?
    ensures r.inferenceConfig.value == InferenceConfig(maxTokens, temperature, topP, stopSequences)
    ensures r.model == model && r.messages == messages && r.systemPrompts == systemPrompts
  {
    ConverseRequest(model, messages, Some(InferenceConfig(maxTokens, temperature, topP, stopSequences)), systemPrompts)
  }

  datatype SdkInferenceConfiguration = SdkInferenceConfiguration(
    maxTokens: Option<int>,
    stopSequences: Option<seq<string>>,
    temperature: Option<real>,
    topp: Option<real>)

  /** Narrow a present value; keep an absent one absent. */
  function NarrowPresent(x: Option<real>, narrow: real -> real): (r: Option<real>)
    ensures r.Some? <==> x.Some?
    ensures x.Some? ==> r.value == narrow(x.value)
  {
    if x.Some? then Some(narrow(x.value)) else None
  }

  /** `InferenceConfig.getSDKInferenceConfig`. */
  function GetSdkInferenceConfig(c: InferenceConfig, narrow: real -> real): (r: SdkInferenceConfiguration)
    ensures r.maxTokens == c.maxTokens && r.stopSequences == c.stopSequences
    ensures r.temperature.Some? <==> c.temperature.Some?
    ensures r.topp.Some? <==> c.topP.Some?
    ensures c.temperature.Some? ==> r.temperature.value == narrow(c.temperature.value)
    ensures c.topP.Some? ==> r.topp.value == narrow(c.topP.value)
  {
    SdkInferenceConfiguration(c.maxTokens, c.stopSequences, NarrowPresent(c.temperature, narrow), NarrowPresent(c.topP, narrow))
  }

  datatype SdkSystemContentBlock = SdkSystemText(text: string)

  /** `getSDKSystemPrompts`: one text block per prompt, in order. */
  function GetSdkSystemPrompts(prompts: Option<seq<string>>): (r: Option<seq<SdkSystemContentBlock>>)
    ensures r.Some? <==> prompts.Some?
    ensures prompts.Some? ==> |r.value| == |prompts.value|
    ensures prompts.Some? ==> forall i :: 0 <= i < |prompts.value| ==> r.value[i] == SdkSystemText(prompts.value[i])
  {
    if prompts.None? then None
    else Some(seq(|prompts.value|, i requires 0 <= i < |prompts.value| => SdkSystemText(prompts.value[i])))
  }

  /** The prompts a list of system blocks carries: the partner of `GetSdkSystemPrompts`. */
  function SystemPromptTexts(blocks: seq<SdkSystemContentBlock>): seq<string> {
    seq(|blocks|, i requires 0 <= i < |blocks| => blocks[i].text)
  }

  lemma SystemPromptsRoundTrip(prompts: seq<string>)
    ensures SystemPromptTexts(GetSdkSystemPrompts(Some(prompts)).value) == prompts
  {
  }

  datatype ConverseInput<S> = ConverseInput(
    inferenceConfig: Option<SdkInferenceConfiguration>,
    messages: seq<SdkMessage<S>>,
    modelId: string,
    system: Option<seq<SdkSystemContentBlock>>)

  /** `getConverseInput`: the messages are converted in order, and any failure aborts. */
  function GetConverseInput<S>(req: ConverseRequest, blockToSdk: Content -> Result<S>, narrow: real -> real): (r: Result<ConverseInput<S>>)
    ensures r.Success? <==> forall i :: 0 <= i < |req.messages| ==> MessageToSdk(req.messages[i], blockToSdk).Success?
    ensures r.Failure? ==> exists i :: 0 <= i < |req.messages| && MessageToSdk(req.messages[i], blockToSdk) == Failure(r.error)
    ensures r.Success? ==>
      && r.value.modelId == req.model.id
      && (r.value.inferenceConfig.Some? <==> req.inferenceConfig.Some?)
      && (req.inferenceConfig.Some? ==> r.value.inferenceConfig.value == GetSdkInferenceConfig(req.inferenceConfig.value, narrow))
      && r.value.system == GetSdkSystemPrompts(req.systemPrompts)
      && |r.value.messages| == |req.messages|
      && forall i :: 0 <= i < |req.messages| ==> MessageToSdk(req.messages[i], blockToSdk) == Success(r.value.messages[i])
  {
    var config := if req.inferenceConfig.Some? then Some(GetSdkInferenceConfig(req.inferenceConfig.value, narrow)) else None;
    var messages :- MapAll(req.messages, (m: Message) => MessageToSdk(m, blockToSdk));
    Success(ConverseInput(config, messages, req.model.id, GetSdkSystemPrompts(req.systemPrompts)))
  }

  /** Every request built by the initializer is sent with an inference configuration. */
  lemma InputAlwaysConfigured<S>(
    model: BedrockModel, messages: seq<Message>, maxTokens: Option<int>, temperature: Option<real>,
    topP: Option<real>, stopSequences: Option<seq<string>>, systemPrompts: Option<seq<string>>,
    blockToSdk: Content -> Result<S>, narrow: real -> real)
    requires GetConverseInput(NewConverseRequest(model, messages, maxTokens, temperature, topP, stopSequences, systemPrompts), blockToSdk, narrow).Success?
    ensures GetConverseInput(NewConverseRequest(model, messages, maxTokens, temperature, topP, stopSequences, systemPrompts), blockToSdk, narrow)
      .value.inferenceConfig == Some(GetSdkInferenceConfig(InferenceConfig(maxTokens, temperature, topP, stopSequences), narrow))
  {
  }

  /** Given a round trip for each block, the messages sent decode back to the request's messages. */
  lemma MessagesRoundTrip<S>(req: ConverseRequest, blockToSdk: Content -> Result<S>, blockFromSdk: S -> Result<Content>, narrow: real -> real)
    requires forall c :: blockToSdk(c).Success? ==> blockFromSdk(blockToSdk(c).value) == Success(c)
    requires GetConverseInput(req, blockToSdk, narrow).Success?
    ensures MapAll(GetConverseInput(req, blockToSdk, narrow).value.messages, (m: SdkMessage<S>) => MessageFromSdk(m, blockFromSdk))
      == Success(req.messages)
  {
    var toSdk := (m: Message) => MessageToSdk(m, blockToSdk);
    var fromSdk := (m: SdkMessage<S>) => MessageFromSdk(m, blockFromSdk);
    forall m | m in req.messages && toSdk(m).Success?
      ensures fromSdk(toSdk(m).value) == Success(m)
    {
      MessageRoundTrip(m, blockToSdk, blockFromSdk);
    }
    MapAllInverse(req.messages, toSdk, fromSdk);
  }
}
