/**
 * The message shapes shared by the server routes, the reply policy and the client:
 * a stored chat entry (server/src/models.ts), a tool result reported beside a reply,
 * and the role/content pair sent to OpenAI-compatible chat APIs.
 */
module Messages {
  import opened Wrappers

  /**
   * The role of a chat entry. The stored entries only ever carry the first four; `Other`
   * stands for any other value a caller could put there, which the sanitizers handle.
   */
  datatype Role = System | User | Assistant | Tool | Other(name: string)

  /** A chat entry. The per-entry timestamp `createdAt` is not part of this model. */
  datatype Message = Message(role: Role, content: string, toolName: Option<string>)

  /** `{ toolName, content }`: what a reply reports about the tools it used. */
  datatype ToolResult = ToolResult(toolName: string, content: string)

  /** `{ role, content }` as sent to an OpenAI-compatible chat completion API. */
  datatype ChatMsg = ChatMsg(role: Role, content: string)

  /** The role name as JavaScript holds it. */
  function RoleName(r: Role): string {
    match r
    case System => "system"
    case User => "user"
    case Assistant => "assistant"
    case Tool => "tool"
    case Other(n) => n
  }

  function UserEntry(content: string): Message {
    Message(User, content, None)
  }

  function AssistantEntry(content: string): Message {
    Message(Assistant, content, None)
  }

  function SystemEntry(content: string): Message {
    Message(System, content, None)
  }

  /** The contents of the entries, in order. */
  function Contents(ms: seq<Message>): (r: seq<string>)
    ensures |r| == |ms| && forall i | 0 <= i < |ms| :: r[i] == ms[i].content
  {
    seq(|ms|, i requires 0 <= i < |ms| => ms[i].content)
  }
}
