/**
 * backend/Sources/BedrockService/Converse/ConversionExtensions/MessageConversionExtension.swift:
 * a message to and from the SDK's `Message`. The SDK's content-block type is
 * the type parameter `S`; the per-block conversions
 * (`Content(from:)`, `getSDKContentBlock`) are passed in.
 */
module MessageConversion {
  import opened Base
  import opened Content

  /** The SDK's `ConversationRole`, with the case for roles this SDK version does not know. */
  datatype SdkRole = SdkUser | SdkAssistant | SdkUnknownRole(name: string)

  datatype SdkMessage<S> = SdkMessage(content: Option<seq<S>>, role: Option<SdkRole>)

  /** `Role(from:)`. */
  function RoleFromSdk(r: SdkRole): (result: Result<Role>)
    ensures result.Failure? <==> r.SdkUnknownRole?
    ensures result.Failure? ==> result.error.NotImplemented?
  {
    match r
    case SdkUser => Success(User)
    case SdkAssistant => Success(Assistant)
    case SdkUnknownRole(_) => Failure(NotImplemented("Role"))
  }

  /** `getSDKConversationRole`. */
  function RoleToSdk(r: Role): (result: SdkRole)
    ensures RoleFromSdk(result) == Success(r)
  {
    match r
    case User => SdkUser
    case Assistant => SdkAssistant
  }

  /**
   * `Message.init(from:)`: the role must be present, then the content; the
   * blocks are converted in order (the first failing one aborts), then the role.
   */
  function MessageFromSdk<S>(m: SdkMessage<S>, blockFromSdk: S -> Result<Content>): (r: Result<Message>)
    ensures m.role.None? ==> r == Failure(DecodingError("role"))
    ensures m.role.Some? && m.content.None? ==> r == Failure(DecodingError("content"))
    ensures m.role.Some? && m.content.Some? && MapAll(m.content.value, blockFromSdk).Failure? ==>
      r == Failure(MapAll(m.content.value, blockFromSdk).error)
    ensures r.Success? ==>
      && m.role.Some? && m.content.Some?
      && RoleFromSdk(m.role.value) == Success(r.value.role)
      && MapAll(m.content.value, blockFromSdk) == Success(r.value.content)
    ensures m.role.Some? && m.content.Some? && MapAll(m.content.value, blockFromSdk).Success? ==>
      r == (match RoleFromSdk(m.role.value)
            case Failure(e) => Failure(e)
            case Success(role) => Success(Message(role, MapAll(m.content.value, blockFromSdk).value)))
  {
    match m.role
    case None => Failure(DecodingError("role"))
    case Some(sdkRole) =>
      match m.content
      case None => Failure(DecodingError("content"))
      case Some(sdkContent) =>
        var content :- MapAll(sdkContent, blockFromSdk);
        var role :- RoleFromSdk(sdkRole);
        Success(Message(role, content))
  }

  /** `getSDKMessage`: the blocks in order, then the role. */
  function MessageToSdk<S>(m: Message, blockToSdk: Content -> Result<S>): (r: Result<SdkMessage<S>>)
    ensures r.Success? <==> forall i :: 0 <= i < |m.content| ==> blockToSdk(m.content[i]).Success?
    ensures r.Success? ==>
      && r.value.role == Some(RoleToSdk(m.role))
      && r.value.content.Some?
      && |r.value.content.value| == |m.content|
      && forall i :: 0 <= i < |m.content| ==> blockToSdk(m.content[i]) == Success(r.value.content.value[i])
  {
    var blocks :- MapAll(m.content, blockToSdk);
    Success(SdkMessage(Some(blocks), Some(RoleToSdk(m.role))))
  }

  /** Given a round trip for each block, a message survives the trip to the SDK and back. */
  lemma MessageRoundTrip<S>(m: Message, blockToSdk: Content -> Result<S>, blockFromSdk: S -> Result<Content>)
    requires forall c :: c in m.content && blockToSdk(c).Success? ==> blockFromSdk(blockToSdk(c).value) == Success(c)
    requires MessageToSdk(m, blockToSdk).Success?
    ensures MessageFromSdk(MessageToSdk(m, blockToSdk).value, blockFromSdk) == Success(m)
  {
    MapAllInverse(m.content, blockToSdk, blockFromSdk);
  }
}
