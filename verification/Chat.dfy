/** The provider-agnostic chat vocabulary shared by the router, the runtime and the trace. */
module Chat {
  import opened Wrappers

  datatype Role = System | User | Assistant | Tool

  datatype ChatMessage = ChatMessage(role: Role, content: string, toolCallId: Option<string>, name: Option<string>)

  /** Arguments are kept as their JSON text. */
  datatype ToolCall = ToolCall(id: string, name: string, arguments: string)

  datatype Usage = Usage(inputTokens: nat, outputTokens: nat) {
    function Total(): nat {
      inputTokens + outputTokens
    }
  }

  datatype ChatResponse = ChatResponse(
    message: ChatMessage, toolCalls: seq<ToolCall>, usage: Usage, providerName: string, model: string)

  function Plain(role: Role, content: string): ChatMessage {
    ChatMessage(role, content, None, None)
  }

  function ToolMessage(call: ToolCall, content: string): ChatMessage {
    ChatMessage(Tool, content, Some(call.id), Some(call.name))
  }
}
