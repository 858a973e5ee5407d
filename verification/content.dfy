/**
 * Conversation content: the closed set of content blocks, messages and the
 * history. The blocks' own wire conversions (other than video's) are not part
 * of this model; they are passed in where a message is converted.
 */
module Content {
  import opened JsonValue
  import opened Image
  import opened Video

  datatype Role = User | Assistant

  datatype ToolUseBlock = ToolUseBlock(id: string, name: string, input: Json)

  datatype ToolStatus = ToolSuccess | ToolError

  datatype ToolResultBlock = ToolResultBlock(id: string, content: Json, status: ToolStatus)

  datatype DocumentBlock = DocumentBlock(name: string, format: string, source: string)

  datatype Content =
    | Text(text: string)
    | ImageContent(image: ImageBlock)
    | VideoContent(video: VideoBlock)
    | DocumentContent(document: DocumentBlock)
    | ToolUse(toolUse: ToolUseBlock)
    | ToolResult(toolResult: ToolResultBlock)

  datatype Message = Message(role: Role, content: seq<Content>)

  /** `History` is `[Message]`. */
  type History = seq<Message>

  /** `Message(prompt)`: one user text block. */
  function PromptMessage(prompt: string): (m: Message)
    ensures m.role == User && |m.content| == 1 && m.content[0] == Text(prompt)
  {
    Message(User, [Text(prompt)])
  }

  /** `Message(prompt:imageFormat:imageBytes:)`: the user's text and the image. */
  function ImagePromptMessage(prompt: string, format: ImageFormat, bytes: string): (m: Message)
    ensures m.role == User && |m.content| == 2 && m.content[0] == Text(prompt)
    ensures m.content[1].ImageContent? && m.content[1].image.format == format && m.content[1].image.source == bytes
  {
    Message(User, [Text(prompt), ImageContent(NewImageBlock(format, bytes))])
  }

  /** `Message(toolResult)`: one user tool-result block. */
  function ToolResultMessage(result: ToolResultBlock): (m: Message)
    ensures m.role == User && |m.content| == 1 && m.content[0] == ToolResult(result)
  {
    Message(User, [ToolResult(result)])
  }

  /** `case .toolUse = messages.last?.content.last`. */
  predicate LastBlockIsToolUse(history: History)
    ensures LastBlockIsToolUse(history) ==> history != [] && history[|history| - 1].content != []
  {
    history != [] && history[|history| - 1].content != []
    && history[|history| - 1].content[|history[|history| - 1].content| - 1].ToolUse?
  }

  /** Only the last message matters: whatever came before, appending a message decides the answer. */
  lemma LastMessageDecides(history: History, m: Message)
    ensures LastBlockIsToolUse(history + [m]) <==> m.content != [] && m.content[|m.content| - 1].ToolUse?
  {
    assert (history + [m])[|history|] == m;
  }

  /** A prompt or a tool result never ends in a tool use, so a user turn never opens a tool-result turn. */
  lemma UserTurnsEndWithoutToolUse(history: History, prompt: string, result: ToolResultBlock)
    ensures !LastBlockIsToolUse(history + [PromptMessage(prompt)])
    ensures !LastBlockIsToolUse(history + [ToolResultMessage(result)])
  {
    LastMessageDecides(history, PromptMessage(prompt));
    LastMessageDecides(history, ToolResultMessage(result));
  }
}
