# Tool-call middleware of prometheus-mcp-server, in Dafny

The Prometheus MCP server registers two middlewares around every tool call:

- **StripUnknownArgumentsMiddleware** looks up the called tool in the server's
  registry. It reads the parameter names declared under `properties` in the
  tool's schema. It then replaces the invocation's argument map with only the
  declared arguments and logs the names it dropped. It does nothing when there
  is no server context or no arguments. It is fail-open: if the lookup or the
  schema reading raises, the error is logged, the arguments stay as they were,
  and the call still goes ahead.
- **ResponseMetadataMiddleware** times the rest of the pipeline. When that
  returns a result object, it creates the object's `meta` map if it is missing.
  It then writes `_package_metadata` (package name and version) and
  `_timing_metadata` (elapsed milliseconds), leaving every other entry alone.
  A failure of the rest of the pipeline is logged with its duration and
  re-raised unchanged, and nothing is annotated. A missing result is passed on
  unchanged.

Files:

- `mcp_types.dfy` (module `McpTypes`): the host framework's surface. It holds
  JSON-like values with Python truthiness, the tool registry, the mutable
  invocation message, the context, the mutable result object, and the outcome
  of the next pipeline stage (a result or a raised exception).
- `strip_unknown_arguments.dfy` (module `StripUnknownArguments`): the argument
  filter. The pure decision is the function `Step`, built from `DeclaredNames`,
  `KeepDeclared` and `UnknownNames`. The in-place update is the class method
  `OnCallTool`, which is proved against `Step`.
- `response_metadata.dfy` (module `ResponseMetadata`): the annotator. The map
  update is the function `Annotated`. The class methods `TimeOperation` and
  `OnCallTool` mutate the result object and are proved against it.

Inputs the Python code takes from its environment are parameters here:

- The next stage (`call_next`) is a function of the arguments it sees for the
  filter, and an outcome value for the annotator.
- The tool registry is a map from tool name to schema.
- The two `perf_counter` readings are `real` parameters.
- The package name and version are a constructor argument.

A failed call gets no metadata: `_time_operation` re-raises
(`middleware.py:54-59`) before `on_call_tool` reaches the annotation
(line 64).

## Model

| member | source | states |
|---|---|---|
| `StripUnknownArguments.DeclaredNames` | src/prometheus_mcp_server/middleware.py:23-25 | The declared names are the keys of `parameters["properties"]`. They are the empty set when that entry is missing or falsy. A truthy non-mapping `properties` is an error, because `.keys()` raises. |
| `StripUnknownArguments.KeepDeclared` | src/prometheus_mcp_server/middleware.py:26 | The kept keys are exactly the supplied keys intersected with the declared names. Every kept value equals the supplied value. |
| `StripUnknownArguments.UnknownNames` | src/prometheus_mcp_server/middleware.py:27 | The unknown names are supplied names and none of them is declared. Every supplied name that is not declared is among them. |
| `StripUnknownArguments.Step` | src/prometheus_mcp_server/middleware.py:20-31 | The filter is skipped iff there is no server context or the arguments are absent or empty. The lookup fails iff the tool is not registered. For a registered tool, the step fails with the schema error exactly when `DeclaredNames` does. Otherwise it strips: the kept keys are the supplied keys intersected with the declared names, and the unknown set is the supplied keys minus the declared names. When it strips, the kept keys and the unknown names are disjoint, together make up the supplied keys, and kept values are unchanged. |
| `StripUnknownArguments.StripUnknownArgumentsMiddleware.OnCallTool` | src/prometheus_mcp_server/middleware.py:18-36 | The new argument map is the stripped one when `Step` strips, and the old one when `Step` skips or fails (fail-open). The registry is consulted iff `Step` does not skip. One info record is logged iff the unknown set is non-empty, and one error record on failure. The next stage runs once, on the resulting arguments, and its outcome is returned. |
| `StripUnknownArguments.KeptAndUnknownPartition` | src/prometheus_mcp_server/middleware.py:26-27 | The kept keys and the unknown names form a disjoint partition of the supplied keys, and their sizes add up to the number of supplied arguments. |
| `StripUnknownArguments.KeepDeclaredIdempotent` | src/prometheus_mcp_server/middleware.py:26-27 | Filtering an already filtered map returns it unchanged and finds no unknown name. |
| `StripUnknownArguments.NoPropertiesStripsAll` | src/prometheus_mcp_server/middleware.py:24-26 | For a registered tool whose schema has no truthy `properties`, every supplied argument is stripped and reported as unknown. |
| `StripUnknownArguments.StripIsIdempotent` | src/prometheus_mcp_server/middleware.py:22-30 | Running the filter again on its own output leaves the arguments as they are and logs no unknown argument. |
| `StripUnknownArguments.UnknownArgumentExample` | src/prometheus_mcp_server/middleware.py:22-30 | For a tool declaring `a` and `b`, called with `a`, `b` and `c`, the call proceeds with `a` and `b` (values intact) and `c` alone is logged as unknown. |
| `ResponseMetadata.ElapsedMs` | src/prometheus_mcp_server/middleware.py:48-51 | The duration in milliseconds is non-negative when the counter has not gone backwards. It is zero exactly when the two readings coincide. |
| `ResponseMetadata.Annotated` | src/prometheus_mcp_server/middleware.py:68-76 | A missing map starts empty. The result's keys are the old keys plus `_package_metadata` and `_timing_metadata`. Those two keys hold `{name, version}` and `{tool_response_time_ms}`, and every other entry keeps its value. |
| `ResponseMetadata.ResponseMetadataMiddleware.constructor` | src/prometheus_mcp_server/middleware.py:42 | The package identity is an immutable field set at construction. It abstracts the class attribute that the source reads once at import and shares between all instances. |
| `ResponseMetadata.ResponseMetadataMiddleware.TimeOperation` | src/prometheus_mcp_server/middleware.py:46-59 | A failure of the next stage is propagated with the very same exception and logged once with its duration. A returned value (even an absent one) is passed on with the elapsed time and logged once. |
| `ResponseMetadata.ResponseMetadataMiddleware.OnCallTool` | src/prometheus_mcp_server/middleware.py:61-80 | The outcome is exactly the next stage's outcome: the same result object, the same absent result, or the same exception. Only a returned result object may be written. Its `meta` becomes `Annotated(old meta)`, with nothing else changed. After a failure or an absent result, no object is written. The logs are the timing record plus, for a result object, the added package entry. |
| `ResponseMetadata.ReannotationSupersedes` | src/prometheus_mcp_server/middleware.py:70-76 | Annotating an annotated map again equals annotating the original once with the newer duration. The later timing overwrites the earlier one and nothing else changes. |
| `ResponseMetadata.AnnotationGrowsByAtMostTwo` | src/prometheus_mcp_server/middleware.py:68-76 | Annotation never shrinks the metadata map and grows it by at most two entries. |

## Left out

- Asynchrony: `async`/`await` and the `call_next` continuation are not modelled. The next stage is a parameter, and interleaving of concurrent calls is not modelled (the middlewares share no state across calls).
- Logging: the logger and its message formatting are not modelled. Each middleware returns the sequence of records it would log, with their levels noted in comments. The stack trace attached to the error record is not modelled.
- Package metadata lookup: the `importlib.metadata` lookup of the package's name and version is not modelled. They are a constructor argument, for the "prometheus-mcp-server" distribution.
- Timing: the float arithmetic of `perf_counter` is modelled with `real`, so rounding is not captured. Monotonicity of the counter is a hypothesis of `ElapsedMs`'s non-negativity clause, not a requirement.
- Cancellation: Python's `except Exception` does not catch `BaseException` subclasses such as task cancellation. A cancellation during the tool lookup would escape the filter without calling the next stage. Only ordinary exceptions are modelled.
- Other failures in the filter: only the two that the schema and registry can cause are modelled (an unregistered tool, and a truthy `properties` that is not a mapping). The model assumes `tool.parameters` is a mapping and the arguments are a mapping, as the framework guarantees.
- Aliasing: the argument map and the `meta` map are modelled as values. Another holder of the same Python dict would see the annotator's in-place writes to `meta`, and the model does not capture that.
- Missing tool name: the source labels the timing log with `"unknown"` when the message has no `name` attribute (`middleware.py:63`). The model's message always has a name, so that fallback label is not modelled. It only affects the log text.
