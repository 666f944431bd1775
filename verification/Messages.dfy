/** internal/provider: the messages of a conversation. */
module Messages {
  datatype ToolCall = ToolCall(id: string, name: string, arguments: string)

  datatype Message = Message(role: string, content: string, toolCalls: seq<ToolCall>, toolCallId: string)

  function UserMessage(content: string): Message {
    Message("user", content, [], "")
  }

  function AssistantMessage(content: string, calls: seq<ToolCall>): Message {
    Message("assistant", content, calls, "")
  }

  function ToolMessage(callId: string, content: string): Message {
    Message("tool", content, [], callId)
  }

  function SystemMessage(content: string): Message {
    Message("system", content, [], "")
  }
}
