/** The message and stream-event model of internal/llm/types.go. */
module Llm {
  import opened Bytes

  datatype Role = User | Assistant | Tool

  datatype ToolCall = ToolCall(id: Bytes, name: Bytes, arguments: Bytes)

  datatype Message = Message(
    role: Role,
    content: Bytes,
    thinking: Bytes,           // assistant only
    toolCalls: seq<ToolCall>,  // assistant only
    toolCallID: Bytes,         // tool only
    name: Bytes,               // tool only
    isError: bool)             // tool only

  function UserMessage(text: Bytes): Message {
    Message(User, text, "", [], "", "", false)
  }

  datatype Usage = Usage(inputTokens: int, outputTokens: int)

  /** `err` is None for the nil error. */
  datatype StreamEvent =
    | ThinkingDelta(text: Bytes)
    | TextDelta(text: Bytes)
    | ToolCallStart(id: Bytes, name: Bytes, preview: Bytes)
    | ToolCallArgs(id: Bytes, name: Bytes, delta: Bytes)
    | ToolCallEnd(id: Bytes, name: Bytes, status: Bytes, elapsed: Bytes)
    | MessageEnd(usage: Usage, stopReason: Bytes)
    | Error(err: Option<Bytes>)

  predicate IsTerminator(ev: StreamEvent) {
    ev.MessageEnd? || ev.Error?
  }

  /** The concatenation of the text deltas of an event sequence. */
  function TextOf(evs: seq<StreamEvent>): Bytes {
    if evs == [] then ""
    else
      var last := evs[|evs| - 1];
      TextOf(evs[..|evs| - 1]) + if last.TextDelta? then last.text else ""
  }

  /** The thinking deltas that come before the first text delta. */
  function ThinkingBeforeText(evs: seq<StreamEvent>): Bytes {
    if evs == [] then ""
    else
      var last := evs[|evs| - 1];
      var init := evs[..|evs| - 1];
      ThinkingBeforeText(init) +
      if last.ThinkingDelta? && (forall e <- init :: !e.TextDelta?) then last.text else ""
  }
}
