/**
 * The typed updates that flow from the agent event-stream decoder to the stream processor:
 * `{ type: MessageType, data }` objects pushed through an RxJS subject.
 */
module Messages {
  import opened Wrappers

  /** A tool call as the agent reported it, passed through untouched. */
  datatype ToolCallInfo = ToolCallInfo(id: string, name: string, args: string)

  /** Reported token usage; `totalTokens` may be absent (`null`/`undefined`). */
  datatype Usage = Usage(totalTokens: Option<int>)

  /** One update, one constructor per `MessageType` (`AGENT_MESSAGE`, `TOOL_CALL`,
      `TOOL_MESSAGE`, `TOKEN_USAGE`); the decoder emits the first three, the processor also
      reacts to the fourth. `Other` stands for an object whose `type` is none of the four. */
  datatype StreamUpdate =
    | AgentMessage(text: string)
    | ToolCall(call: ToolCallInfo)
    | ToolMessage(content: Option<string>)
    | TokenUsage(usage: Option<Usage>)
    | Other(typeName: string)
}
