/**
  The surface of the host tool-calling framework that the two middlewares
  touch: JSON-like values, the invocation message and its context, the
  tool registry and the result object a tool call produces.
 */
module McpTypes {

  datatype Option<+T> = None | Some(value: T)

  datatype Result<+T, +E> = Ok(value: T) | Err(error: E)

  /** A JSON-like value, as carried in argument maps, tool schemas and result metadata. */
  datatype Value =
    | Null
    | Bool(b: bool)
    | Num(x: real)
    | Str(s: string)
    | List(items: seq<Value>)
    | Object(fields: map<string, Value>)

  /** Python truthiness of a value: None, False, zero and empty containers are false. */
  predicate Truthy(v: Value)
  {
    match v
    case Null => false
    case Bool(b) => b
    case Num(x) => x != 0.0
    case Str(s) => s != []
    case List(items) => items != []
    case Object(fields) => fields != map[]
  }

  /** The arguments of one tool invocation: argument name to value. */
  type Arguments = map<string, Value>

  /** A registered tool; `parameters` is its JSON schema. */
  datatype Tool = Tool(parameters: map<string, Value>)

  /** The server behind a context: its tool registry, looked up by tool name. */
  datatype Server = Server(tools: map<string, Tool>)

  /** An exception raised by the host or by the next stage of the pipeline. */
  datatype Exception = Exception(kind: string, message: string)

  /** The invocation being dispatched; the argument map is replaced in place by middleware. */
  class Message {
    const name: string
    var arguments: Option<Arguments>

    constructor (name: string, arguments: Option<Arguments>)
      ensures this.name == name && this.arguments == arguments
    {
      this.name := name;
      this.arguments := arguments;
    }
  }

  /** The middleware context: the message and, when available, the server it runs in. */
  class Context {
    const message: Message
    const server: Option<Server>

    constructor (message: Message, server: Option<Server>)
      ensures this.message == message && this.server == server
    {
      this.message := message;
      this.server := server;
    }
  }

  /** The object a tool call returns; its metadata map is optional and mutable. */
  class ToolResult {
    var meta: Option<map<string, Value>>

    constructor (meta: Option<map<string, Value>>)
      ensures this.meta == meta
    {
      this.meta := meta;
    }
  }

  /** What the next stage of the pipeline does: return a result (possibly none) or raise. */
  datatype CallOutcome =
    | Returned(result: ToolResult?)
    | Raised(error: Exception)
}
