/** The values that flow between the chat engine, the primary language
    model, the tool registry and the evaluator: chat messages, the model's
    tool calls and responses, and the tools' results. */
module Messages {

  /** A value or the message of the exception that stood in its place. */
  datatype Outcome<T> = Ok(value: T) | Err(error: string)

  datatype Role = System | User | Assistant | Tool

  function RoleName(r: Role): string {
    match r
    case System => "system"
    case User => "user"
    case Assistant => "assistant"
    case Tool => "tool"
  }

  /** A tool call's `arguments` text as `json.loads` sees it: an object of
      named arguments; a JSON value that is not an object, whose keyword
      expansion `**arguments` would raise the exception whose message is
      `error`; or text that is not JSON at all, with the message of the
      exception decoding raises. */
  datatype Arguments =
    | ArgsObject(fields: map<string, string>)
    | NotObject(error: string)
    | Malformed(error: string)

  datatype ToolCall = ToolCall(id: string, name: string, args: Arguments)

  /** The message the model returns with finish reason "tool_calls": its
      content, its tool calls, and the text `str()` gives for the object. */
  datatype ToolRequest = ToolRequest(content: string, calls: seq<ToolCall>, shown: string)

  /** One entry of a conversation: a `{"role", "content"}` dictionary, the
      model's tool-call message object, or a tool result dictionary. */
  datatype Message =
    | Plain(role: Role, content: string)
    | Request(req: ToolRequest)
    | ToolResult(content: string, toolCallId: string)

  function RoleOf(m: Message): Role {
    match m
    case Plain(role, _) => role
    case Request(_) => Assistant
    case ToolResult(_, _) => Tool
  }

  /** What one call of the primary model returns: a tool-call request, a
      reply with any other finish reason, or the exception it raised. */
  datatype ModelResponse =
    | ToolCalls(req: ToolRequest)
    | Final(content: string)
    | Failure(error: string)

  /** `response.choices[0].message.content` of a response that did not raise. */
  function ContentOf(r: ModelResponse): string
    requires !r.Failure?
  {
    match r
    case ToolCalls(req) => req.content
    case Final(content) => content
  }

  /** A JSON-serialisable tool result; only the empty dictionary that stands
      in for an unknown tool has a known encoding. */
  datatype JsonValue = EmptyObject | Encoded(json: string)

  /** `json.dumps` of a tool result. */
  function Dumps(v: JsonValue): string {
    match v
    case EmptyObject => "{}"
    case Encoded(json) => json
  }

  /** A registered tool, called with the decoded keyword arguments. */
  type Tool = map<string, string> -> Outcome<JsonValue>

  /** Tool name to tool, as the engine's `self.tools` dictionary. */
  type Registry = map<string, Tool>

  /** The text `f"{m}"` produces for one message. */
  function Show(m: Message): string {
    match m
    case Plain(role, content) => "{'role': '" + RoleName(role) + "', 'content': '" + content + "'}"
    case Request(req) => req.shown
    case ToolResult(content, id) =>
      "{'role': 'tool', 'content': '" + content + "', 'tool_call_id': '" + id + "'}"
  }

  function ShowEntries(ms: seq<Message>): string {
    if ms == [] then ""
    else if |ms| == 1 then Show(ms[0])
    else Show(ms[0]) + ", " + ShowEntries(ms[1..])
  }

  /** The text `f"{history}"` produces for a list of messages. */
  function ShowList(ms: seq<Message>): string {
    "[" + ShowEntries(ms) + "]"
  }
}
