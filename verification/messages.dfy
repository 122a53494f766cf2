/** Conversation messages as the router sees them: only the tool calls and the
    correlation ids matter, content is carried along as opaque text. */
module Messages {

  /** A tool call requested by the model: the tool's name and its correlation id. */
  datatype ToolCall = ToolCall(name: string, id: string)

  /** A chat message. Only `Ai` messages carry a `tool_calls` attribute. */
  datatype Message =
    | Human(content: string)
    | Ai(content: string, toolCalls: seq<ToolCall>)
    | Tool(content: string, toolCallId: string)

  /** The last message exists and is a model message, so reading `.tool_calls` on it succeeds. */
  predicate LastIsAi(msgs: seq<Message>)
  {
    |msgs| > 0 && msgs[|msgs| - 1].Ai?
  }

  /** The tool calls the last message leaves pending; a message without a
      `tool_calls` attribute leaves none (the check `tools_condition` makes). */
  function PendingCalls(msgs: seq<Message>): (r: seq<ToolCall>)
    ensures |r| > 0 ==> LastIsAi(msgs)
  {
    if LastIsAi(msgs) then msgs[|msgs| - 1].toolCalls else []
  }

  /** `responses` answers `calls` one for one, in the same order, by correlation id. */
  predicate Answers(responses: seq<Message>, calls: seq<ToolCall>)
  {
    && |responses| == |calls|
    && forall i :: 0 <= i < |responses| ==> responses[i].Tool? && responses[i].toolCallId == calls[i].id
  }
}
