/** The streamed messages the agent runtime produces, and the runtime itself. */
module Messages {
  import opened Wrappers
  import opened Json

  /** A content block of a message. Only text blocks expose a `text` attribute. */
  datatype Block =
    | TextBlock(text: string)
    | ToolUseBlock(id: string, name: string, input: JsonValue)
    | ToolResultBlock(toolUseId: string, output: JsonValue)

  /** A streamed message, told apart the way the aggregators tell them apart:
      by the attributes it exposes. A message with `content` is a
      ContentMessage whatever else it carries; `ownText` and `ownResult` record
      a `text` or `result` attribute it may expose as well (None: absent), so
      that the model can show both are ignored. A ResultMessage's `result` is
      None when the runtime reports no result. */
  datatype Message =
    | ContentMessage(content: seq<Block>, ownText: Option<string>, ownResult: Option<string>)
    | TextMessage(text: string)
    | ResultMessage(result: Option<string>)
    | OtherMessage

  /** The agent runtime, seen from the caller: the finite message stream that
      one session produces for the submitted prompt. */
  type Runtime = string -> seq<Message>
}
