/**
  The response-annotating middleware: time the rest of the pipeline and, when
  it returns a result object, write the package identity and the elapsed time
  into that object's metadata map. A failure of the rest of the pipeline is
  re-raised untouched and nothing is annotated.
 */
module ResponseMetadata {
  import opened McpTypes

  /** The two metadata keys the middleware writes. */
  const PackageMetadataKey: string := "_package_metadata"
  const TimingMetadataKey: string := "_timing_metadata"

  /**
    Name and version of the installed "prometheus-mcp-server" distribution,
    read once when the middleware is loaded.
   */
  datatype PackageMetadata = PackageMetadata(name: string, version: string)

  /** Outcome of timing the rest of the pipeline: a result with its duration, or the re-raised failure. */
  datatype Timed =
    | Completed(result: ToolResult?, durationMs: real)
    | Propagated(error: Exception)

  /** Log records the middleware emits. */
  datatype MetadataLog =
    | OperationCompleted(operation: string, durationMs: real)                    // debug level
    | OperationFailed(operation: string, durationMs: real, error: Exception)     // warning level
    | MetadataAdded(entry: Value)                                                // debug level

  /** The value stored under the package metadata key. */
  function PackageEntry(pkg: PackageMetadata): Value
  {
    Object(map["name" := Str(pkg.name), "version" := Str(pkg.version)])
  }

  /** The value stored under the timing metadata key. */
  function TimingEntry(durationMs: real): Value
  {
    Object(map["tool_response_time_ms" := Num(durationMs)])
  }

  /**
    Milliseconds between two readings of the performance counter. The counter
    is monotonic, so a later reading gives a duration that is not negative.
   */
  function ElapsedMs(start: real, stop: real): (ms: real)
    ensures start <= stop ==> ms >= 0.0
    ensures ms == 0.0 <==> start == stop
  {
    (stop - start) * 1000.0
  }

  /** The label the middleware logs for a call of tool `name`. */
  function OperationName(name: string): string
  {
    "Tool '" + name + "'"
  }

  /**
    The metadata map after annotation: a missing map starts out empty, the two
    fixed keys are written and every other entry is kept.
   */
  function Annotated(meta: Option<map<string, Value>>, pkg: PackageMetadata, durationMs: real)
    : (m: map<string, Value>)
    ensures var before := if meta.Some? then meta.value else map[];
      && m.Keys == before.Keys + {PackageMetadataKey, TimingMetadataKey}
      && m[PackageMetadataKey] == PackageEntry(pkg)
      && m[TimingMetadataKey] == TimingEntry(durationMs)
      && (forall k :: k in before && k != PackageMetadataKey && k != TimingMetadataKey ==> m[k] == before[k])
  {
    var before := if meta.Some? then meta.value else map[];
    before[PackageMetadataKey := PackageEntry(pkg)][TimingMetadataKey := TimingEntry(durationMs)]
  }

  /** The objects the middleware may write to: the returned result object, if any. */
  function Written(downstream: CallOutcome): set<object>
  {
    if downstream.Returned? && downstream.result != null then {downstream.result} else {}
  }

  class ResponseMetadataMiddleware {
    const packageMetadata: PackageMetadata

    constructor (packageMetadata: PackageMetadata)
      ensures this.packageMetadata == packageMetadata
    {
      this.packageMetadata := packageMetadata;
    }

    /**
      Run the rest of the pipeline between two counter readings: pass its
      result on with the elapsed time, or log the elapsed time and re-raise
      the very same failure.
     */
    method TimeOperation(downstream: CallOutcome, start: real, stop: real, operation: string)
      returns (timed: Timed, logs: seq<MetadataLog>)
      ensures timed.Propagated? <==> downstream.Raised?
      ensures downstream.Raised? ==>
        && timed.error == downstream.error
        && logs == [OperationFailed(operation, ElapsedMs(start, stop), downstream.error)]
      ensures downstream.Returned? ==>
        && timed.result == downstream.result
        && timed.durationMs == ElapsedMs(start, stop)
        && logs == [OperationCompleted(operation, timed.durationMs)]
    {
      var durationMs := ElapsedMs(start, stop);
      match downstream {
        case Returned(result) =>
          logs := [OperationCompleted(operation, durationMs)];
          timed := Completed(result, durationMs);
        case Raised(error) =>
          logs := [OperationFailed(operation, durationMs, error)];
          timed := Propagated(error);
      }
    }

    /**
      Annotate the result of a tool call. `downstream` is what the rest of the
      pipeline returns or raises; `start` and `stop` are the counter readings
      taken around it.
     */
    method OnCallTool(context: Context, downstream: CallOutcome, start: real, stop: real)
      returns (outcome: CallOutcome, logs: seq<MetadataLog>)
      modifies Written(downstream)
      ensures outcome == downstream
      ensures downstream.Returned? && downstream.result != null ==>
        downstream.result.meta
          == Some(Annotated(old(downstream.result.meta), packageMetadata, ElapsedMs(start, stop)))
      ensures var operation := OperationName(context.message.name);
        var durationMs := ElapsedMs(start, stop);
        logs == match downstream
          case Raised(e) => [OperationFailed(operation, durationMs, e)]
          case Returned(r) =>
            [OperationCompleted(operation, durationMs)]
              + (if r == null then [] else [MetadataAdded(PackageEntry(packageMetadata))])
    {
      var timed;
      timed, logs := TimeOperation(downstream, start, stop, OperationName(context.message.name));
      match timed {
        case Propagated(error) =>
          outcome := Raised(error);
        case Completed(result, durationMs) =>
          outcome := Returned(result);
          if result != null {
            if result.meta.None? {
              result.meta := Some(map[]);
            }
            var meta := result.meta.value;
            meta := meta[PackageMetadataKey := PackageEntry(packageMetadata)];
            meta := meta[TimingMetadataKey := TimingEntry(durationMs)];
            result.meta := Some(meta);
            logs := logs + [MetadataAdded(meta[PackageMetadataKey])];
          }
      }
    }
  }

  /** Annotating again with a new duration supersedes the earlier annotation and nothing else. */
  lemma ReannotationSupersedes(
    meta: Option<map<string, Value>>, pkg: PackageMetadata, first: real, second: real)
    ensures Annotated(Some(Annotated(meta, pkg, first)), pkg, second) == Annotated(meta, pkg, second)
  {
  }

  /** Annotation adds at most the two fixed entries and never drops one. */
  lemma AnnotationGrowsByAtMostTwo(meta: map<string, Value>, pkg: PackageMetadata, durationMs: real)
    ensures |meta| <= |Annotated(Some(meta), pkg, durationMs)| <= |meta| + 2
  {
  }
}
