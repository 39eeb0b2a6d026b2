/**
  The argument-stripping middleware: before a tool call is dispatched, drop
  every argument the tool's schema does not declare. The filter is fail-open:
  when the lookup of the tool or the reading of its schema fails, the
  arguments stay as they were and the call goes ahead regardless.
 */
module StripUnknownArguments {
  import opened McpTypes

  /** The two ways the filter itself can fail (each is caught and logged). */
  datatype FilterError =
    | ToolNotFound(name: string)   // the registry lookup raises
    | PropertiesWithoutKeys        // "properties" is truthy but not a mapping, so `.keys()` raises

  /** What the filter decides for one invocation. */
  datatype StripStep =
    | Skipped                                             // no server context, or no arguments
    | Failed(error: FilterError)                          // caught, arguments untouched
    | Stripped(kept: Arguments, unknown: set<string>)     // arguments replaced by `kept`

  /** Log records the middleware emits. */
  datatype StripLog =
    | UnknownArgumentsLogged(tool: string, names: set<string>)   // info level
    | FilterFailed(error: FilterError)                           // error level, with stack trace

  /**
    The parameter names a tool declares: the keys of `parameters["properties"]`,
    or none when that entry is missing or falsy.
   */
  function DeclaredNames(tool: Tool): (r: Result<set<string>, FilterError>)
    ensures "properties" !in tool.parameters ==> r == Ok({})
    ensures "properties" in tool.parameters ==>
      var props := tool.parameters["properties"];
      && (!Truthy(props) ==> r == Ok({}))
      && (Truthy(props) && props.Object? ==> r == Ok(props.fields.Keys))
      && (Truthy(props) && !props.Object? ==> r == Err(PropertiesWithoutKeys))
  {
    if "properties" !in tool.parameters then Ok({})
    else
      var props := tool.parameters["properties"];
      if !Truthy(props) then Ok({})
      else if props.Object? then Ok(props.fields.Keys)
      else Err(PropertiesWithoutKeys)
  }

  /** The supplied arguments whose names are declared, with their values. */
  function KeepDeclared(arguments: Arguments, declared: set<string>): (kept: Arguments)
    ensures kept.Keys == arguments.Keys * declared
    ensures forall k :: k in kept ==> kept[k] == arguments[k]
  {
    map k | k in arguments && k in declared :: arguments[k]
  }

  /** The names of the supplied arguments that are not declared. */
  function UnknownNames(arguments: Arguments, declared: set<string>): (unknown: set<string>)
    ensures unknown <= arguments.Keys
    ensures unknown !! declared
    ensures forall k :: k in arguments && k !in declared ==> k in unknown
  {
    arguments.Keys - declared
  }

  /**
    The decision the middleware takes for an invocation of tool `name` with
    `arguments`, against the registry of `server` when there is one.
   */
  function Step(server: Option<Server>, name: string, arguments: Option<Arguments>): (step: StripStep)
    ensures step.Skipped? <==> server.None? || arguments.None? || arguments.value == map[]
    ensures step.Failed? && step.error.ToolNotFound? <==>
      !step.Skipped? && name !in server.value.tools
    ensures step.Stripped? ==>
      && arguments.Some?
      && step.kept.Keys !! step.unknown
      && step.kept.Keys + step.unknown == arguments.value.Keys
      && (forall k :: k in step.kept ==> step.kept[k] == arguments.value[k])
    ensures !step.Skipped? && name in server.value.tools ==>
      match DeclaredNames(server.value.tools[name])
      case Err(e) => step == Failed(e)
      case Ok(declared) =>
        && step.Stripped?
        && step.kept.Keys == arguments.value.Keys * declared
        && step.unknown == arguments.value.Keys - declared
  {
    if server.None? || arguments.None? || |arguments.value| == 0 then Skipped
    else if name !in server.value.tools then Failed(ToolNotFound(name))
    else
      match DeclaredNames(server.value.tools[name])
      case Err(e) => Failed(e)
      case Ok(declared) =>
        Stripped(KeepDeclared(arguments.value, declared), UnknownNames(arguments.value, declared))
  }

  /** The arguments the invocation carries once the step is applied. */
  function ArgumentsAfter(arguments: Option<Arguments>, step: StripStep): Option<Arguments>
  {
    if step.Stripped? then Some(step.kept) else arguments
  }

  /** What the step writes to the log. */
  function LogsOf(name: string, step: StripStep): seq<StripLog>
  {
    match step
    case Skipped => []
    case Failed(e) => [FilterFailed(e)]
    case Stripped(_, unknown) => if unknown != {} then [UnknownArgumentsLogged(name, unknown)] else []
  }

  class StripUnknownArgumentsMiddleware {

    constructor ()
    {
    }

    /**
      Filter the invocation's arguments in place, then hand the context to
      the next stage exactly once and return what it returns (or raises).
      `callNext` is the next stage, as a function of the arguments it sees.
     */
    method OnCallTool(context: Context, callNext: Option<Arguments> -> CallOutcome)
      returns (outcome: CallOutcome, lookedUp: bool, logs: seq<StripLog>)
      modifies context.message
      ensures var step := Step(context.server, context.message.name, old(context.message.arguments));
        && context.message.arguments == ArgumentsAfter(old(context.message.arguments), step)
        && lookedUp == !step.Skipped?
        && logs == LogsOf(context.message.name, step)
      ensures outcome == callNext(context.message.arguments)
    {
      var message := context.message;
      lookedUp := false;
      logs := [];
      if context.server.Some? && message.arguments.Some? && |message.arguments.value| > 0 {
        lookedUp := true;
        var tools := context.server.value.tools;
        if message.name !in tools {
          logs := [FilterFailed(ToolNotFound(message.name))];
        } else {
          var declared := DeclaredNames(tools[message.name]);
          match declared {
            case Err(e) =>
              logs := [FilterFailed(e)];
            case Ok(names) =>
              var arguments := message.arguments.value;
              var filtered := KeepDeclared(arguments, names);
              var unknown := UnknownNames(arguments, names);
              if unknown != {} {
                logs := [UnknownArgumentsLogged(message.name, unknown)];
              }
              message.arguments := Some(filtered);
          }
        }
      }
      outcome := callNext(message.arguments);
    }
  }

  /** The kept and the unknown names split the supplied names in two. */
  lemma KeptAndUnknownPartition(arguments: Arguments, declared: set<string>)
    ensures KeepDeclared(arguments, declared).Keys !! UnknownNames(arguments, declared)
    ensures KeepDeclared(arguments, declared).Keys + UnknownNames(arguments, declared) == arguments.Keys
    ensures |KeepDeclared(arguments, declared)| + |UnknownNames(arguments, declared)| == |arguments|
  {
  }

  /** Filtering an already filtered map changes nothing and finds nothing unknown. */
  lemma KeepDeclaredIdempotent(arguments: Arguments, declared: set<string>)
    ensures KeepDeclared(KeepDeclared(arguments, declared), declared) == KeepDeclared(arguments, declared)
    ensures UnknownNames(KeepDeclared(arguments, declared), declared) == {}
  {
  }

  /** A schema without (truthy) properties declares nothing, so every argument is stripped. */
  lemma NoPropertiesStripsAll(server: Server, name: string, arguments: Arguments)
    requires name in server.tools && arguments != map[]
    requires "properties" !in server.tools[name].parameters
          || !Truthy(server.tools[name].parameters["properties"])
    ensures Step(Some(server), name, Some(arguments)) == Stripped(map[], arguments.Keys)
  {
  }

  /**
    Running the middleware a second time on its own output leaves the
    arguments as they are and logs no unknown argument.
   */
  lemma StripIsIdempotent(server: Option<Server>, name: string, arguments: Option<Arguments>)
    ensures var once := ArgumentsAfter(arguments, Step(server, name, arguments));
      var again := Step(server, name, once);
      && ArgumentsAfter(once, again) == once
      && (forall log :: log in LogsOf(name, again) ==> !log.UnknownArgumentsLogged?)
  {
    var step := Step(server, name, arguments);
    if step.Stripped? {
      var declared := DeclaredNames(server.value.tools[name]).value;
      KeepDeclaredIdempotent(arguments.value, declared);
    }
  }

  /**
    A tool declaring `a` and `b`, invoked with `a`, `b` and `c`: the call goes
    ahead with `a` and `b` only, and `c` is logged as unknown.
   */
  lemma UnknownArgumentExample(va: Value, vb: Value, vc: Value)
    ensures var server := Server(map["echo" := Tool(map["properties" := Object(map["a" := Null, "b" := Null])])]);
      var step := Step(Some(server), "echo", Some(map["a" := va, "b" := vb, "c" := vc]));
      && ArgumentsAfter(Some(map["a" := va, "b" := vb, "c" := vc]), step) == Some(map["a" := va, "b" := vb])
      && LogsOf("echo", step) == [UnknownArgumentsLogged("echo", {"c"})]
  {
    var arguments := map["a" := va, "b" := vb, "c" := vc];
    var tool := Tool(map["properties" := Object(map["a" := Null, "b" := Null])]);
    var properties := map["a" := Null, "b" := Null];
    assert "a" in properties;
    var declared := {"a", "b"};
    assert properties.Keys == declared;
    assert DeclaredNames(tool) == Ok(declared);
    var kept := KeepDeclared(arguments, declared);
    assert kept.Keys == {"a", "b"};
    assert kept == map["a" := va, "b" := vb];
    assert UnknownNames(arguments, declared) == {"c"};
  }
}
