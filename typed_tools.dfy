/** The typed-argument binders of mcp/typed_tools.go. Each turns a handler over a typed
    argument record into an untyped handler: it binds the request's arguments first and turns a
    binding failure into an error-flagged immediate result instead of a Go error.

    The collaborators are passed in as function values: `request.BindArguments(&args)` is a
    `Binder<T>`; `NewToolResultError` and `err.Error()` (what `%v` prints for an error) are the
    fields of an `ErrorResults`; the structured binders also take `NewToolResultStructuredOnly`.
    Both result builders return a `CallToolResult` value here. `NewToolResultError`'s result is
    dereferenced at mcp/typed_tools.go:33, 66 and 72, so the source relies on it being non-nil.
    That `NewToolResultStructuredOnly` never returns nil is this model's own assumption; the
    source does not rely on it (lines 55, 77). */
module TypedTools {
  import opened Mcp

  /** What binding the request's arguments into a zero-valued `T` produced. */
  datatype Bound<+T> = Bound(args: T) | BindFailed(err: Error)

  type Binder<!T> = CallToolRequest -> Bound<T>

  /** The foreign error-result builder and the error formatter. */
  datatype ErrorResults = ErrorResults(
    newToolResultError: string -> CallToolResult,
    errorText: Error -> string)

  /** What a structured handler returns: Go's `(TResult, error)`. */
  datatype Returned<+R> = Returned(value: R, err: Option<Error>)

  type TypedToolHandlerFunc<!T> = (Context, CallToolRequest, T) -> Reply<CallToolResult>

  type TypedTaskToolHandlerFunc<!T> = (Context, CallToolRequest, T) -> Reply<AnyToolResult>

  type StructuredToolHandlerFunc<!A, !R> = (Context, CallToolRequest, A) -> Returned<R>

  function BindFailureMessage(builders: ErrorResults, e: Error): string
  {
    "failed to bind arguments: " + builders.errorText(e)
  }

  function ExecutionFailureMessage(builders: ErrorResults, e: Error): string
  {
    "tool execution failed: " + builders.errorText(e)
  }

  /** The error result a failed binding is reported as. */
  function BindFailureResult(builders: ErrorResults, e: Error): CallToolResult
  {
    builders.newToolResultError(BindFailureMessage(builders, e))
  }

  /** The error result a failed structured handler is reported as. */
  function ExecutionFailureResult(builders: ErrorResults, e: Error): CallToolResult
  {
    builders.newToolResultError(ExecutionFailureMessage(builders, e))
  }

  /** `NewTypedToolHandler`: a binding failure is answered with an error result and no Go error;
      a successful binding answers exactly what the handler answers for the bound arguments. */
  function NewTypedToolHandler<T>(builders: ErrorResults, bind: Binder<T>, handler: TypedToolHandlerFunc<T>): (adapted: ToolHandlerFunc)
    ensures forall ctx, request :: bind(request).BindFailed? ==>
      adapted(ctx, request) == Reply(Some(BindFailureResult(builders, bind(request).err)), None)
    ensures forall ctx, request :: bind(request).Bound? ==>
      adapted(ctx, request) == handler(ctx, request, bind(request).args)
  {
    (ctx: Context, request: CallToolRequest) =>
      match bind(request)
      case BindFailed(e) => Reply(Some(BindFailureResult(builders, e)), None)
      case Bound(args) => handler(ctx, request, args)
  }

  /** `NewTypedTaskToolHandler`: as `NewTypedToolHandler`, with the binding failure reported as the
      immediate-result case of the union. */
  function NewTypedTaskToolHandler<T>(builders: ErrorResults, bind: Binder<T>, handler: TypedTaskToolHandlerFunc<T>): (adapted: TaskToolHandlerFunc)
    ensures forall ctx, request :: bind(request).BindFailed? ==>
      adapted(ctx, request) == Reply(Some(CallTool(BindFailureResult(builders, bind(request).err))), None)
    ensures forall ctx, request :: bind(request).Bound? ==>
      adapted(ctx, request) == handler(ctx, request, bind(request).args)
  {
    (ctx: Context, request: CallToolRequest) =>
      match bind(request)
      case BindFailed(e) => Reply(Some(CallTool(BindFailureResult(builders, e))), None)
      case Bound(args) => handler(ctx, request, args)
  }

  /** `NewStructuredToolHandler`: never a Go error and never a nil result; a binding failure or a
      handler error is an error result, a success is the structured-only rendering of the value. */
  function NewStructuredToolHandler<A, R>(builders: ErrorResults, structuredOnly: R -> CallToolResult, bind: Binder<A>, handler: StructuredToolHandlerFunc<A, R>): (adapted: ToolHandlerFunc)
    ensures forall ctx, request :: adapted(ctx, request).err == None && adapted(ctx, request).result.Some?
    ensures forall ctx, request :: bind(request).BindFailed? ==>
      adapted(ctx, request).result == Some(BindFailureResult(builders, bind(request).err))
    ensures forall ctx, request :: bind(request).Bound? && handler(ctx, request, bind(request).args).err.Some? ==>
      adapted(ctx, request).result == Some(ExecutionFailureResult(builders, handler(ctx, request, bind(request).args).err.value))
    ensures forall ctx, request :: bind(request).Bound? && handler(ctx, request, bind(request).args).err.None? ==>
      adapted(ctx, request).result == Some(structuredOnly(handler(ctx, request, bind(request).args).value))
  {
    (ctx: Context, request: CallToolRequest) =>
      match bind(request)
      case BindFailed(e) => Reply(Some(BindFailureResult(builders, e)), None)
      case Bound(args) =>
        var out := handler(ctx, request, args);
        if out.err.Some? then Reply(Some(ExecutionFailureResult(builders, out.err.value)), None)
        else Reply(Some(structuredOnly(out.value)), None)
  }

  /** `NewStructuredTaskToolHandler` with every outcome stored as the `CallToolResult` value, as the
      two error paths of the source do: never a Go error, never a task handle. */
  function NewStructuredTaskToolHandler<A, R>(builders: ErrorResults, structuredOnly: R -> CallToolResult, bind: Binder<A>, handler: StructuredToolHandlerFunc<A, R>): (adapted: TaskToolHandlerFunc)
    ensures forall ctx, request ::
      adapted(ctx, request).err == None && adapted(ctx, request).result.Some? && adapted(ctx, request).result.value.CallTool?
    ensures forall ctx, request :: bind(request).BindFailed? ==>
      adapted(ctx, request).result == Some(CallTool(BindFailureResult(builders, bind(request).err)))
    ensures forall ctx, request :: bind(request).Bound? && handler(ctx, request, bind(request).args).err.Some? ==>
      adapted(ctx, request).result == Some(CallTool(ExecutionFailureResult(builders, handler(ctx, request, bind(request).args).err.value)))
    ensures forall ctx, request :: bind(request).Bound? && handler(ctx, request, bind(request).args).err.None? ==>
      adapted(ctx, request).result == Some(CallTool(structuredOnly(handler(ctx, request, bind(request).args).value)))
  {
    (ctx: Context, request: CallToolRequest) =>
      match bind(request)
      case BindFailed(e) => Reply(Some(CallTool(BindFailureResult(builders, e))), None)
      case Bound(args) =>
        var out := handler(ctx, request, args);
        if out.err.Some? then Reply(Some(CallTool(ExecutionFailureResult(builders, out.err.value))), None)
        else Reply(Some(CallTool(structuredOnly(out.value))), None)
  }

  /** `NewStructuredTaskToolHandler` as written: on success it stores the `*CallToolResult` that
      `NewToolResultStructuredOnly` returns in the union without dereferencing it. */
  function NewStructuredTaskToolHandlerAsWritten<A, R>(builders: ErrorResults, structuredOnly: R -> CallToolResult, bind: Binder<A>, handler: StructuredToolHandlerFunc<A, R>): (adapted: TaskToolHandlerFunc)
    ensures forall ctx, request :: adapted(ctx, request).err == None && adapted(ctx, request).result.Some?
    ensures forall ctx, request :: bind(request).Bound? && handler(ctx, request, bind(request).args).err.None? ==>
      adapted(ctx, request).result ==
        Some(Other(CallToolPointer(Some(structuredOnly(handler(ctx, request, bind(request).args).value)))))
    ensures forall ctx, request :: !(bind(request).Bound? && handler(ctx, request, bind(request).args).err.None?) ==>
      adapted(ctx, request) == NewStructuredTaskToolHandler(builders, structuredOnly, bind, handler)(ctx, request)
  {
    (ctx: Context, request: CallToolRequest) =>
      match bind(request)
      case BindFailed(e) => Reply(Some(CallTool(BindFailureResult(builders, e))), None)
      case Bound(args) =>
        var out := handler(ctx, request, args);
        if out.err.Some? then Reply(Some(CallTool(ExecutionFailureResult(builders, out.err.value))), None)
        else Reply(Some(Other(CallToolPointer(Some(structuredOnly(out.value))))), None)
  }

  /** A failed binding never reaches the wrapped handler: whatever handler is wrapped, the answer
      is the same. */
  lemma TypedBindFailureSkipsHandler<T>(builders: ErrorResults, bind: Binder<T>, h1: TypedToolHandlerFunc<T>, h2: TypedToolHandlerFunc<T>, ctx: Context, request: CallToolRequest)
    requires bind(request).BindFailed?
    ensures NewTypedToolHandler(builders, bind, h1)(ctx, request) == NewTypedToolHandler(builders, bind, h2)(ctx, request)
  {
  }

  lemma TypedTaskBindFailureSkipsHandler<T>(builders: ErrorResults, bind: Binder<T>, h1: TypedTaskToolHandlerFunc<T>, h2: TypedTaskToolHandlerFunc<T>, ctx: Context, request: CallToolRequest)
    requires bind(request).BindFailed?
    ensures NewTypedTaskToolHandler(builders, bind, h1)(ctx, request) == NewTypedTaskToolHandler(builders, bind, h2)(ctx, request)
  {
  }

  lemma StructuredBindFailureSkipsHandler<A, R>(builders: ErrorResults, structuredOnly: R -> CallToolResult, bind: Binder<A>, h1: StructuredToolHandlerFunc<A, R>, h2: StructuredToolHandlerFunc<A, R>, ctx: Context, request: CallToolRequest)
    requires bind(request).BindFailed?
    ensures NewStructuredToolHandler(builders, structuredOnly, bind, h1)(ctx, request) == NewStructuredToolHandler(builders, structuredOnly, bind, h2)(ctx, request)
    ensures NewStructuredTaskToolHandler(builders, structuredOnly, bind, h1)(ctx, request) == NewStructuredTaskToolHandler(builders, structuredOnly, bind, h2)(ctx, request)
  {
  }

  /** The task-capable structured binder answers each call with exactly the result the synchronous
      one answers, stored as the immediate-result case. */
  lemma StructuredTaskMirrorsStructured<A, R>(builders: ErrorResults, structuredOnly: R -> CallToolResult, bind: Binder<A>, handler: StructuredToolHandlerFunc<A, R>, ctx: Context, request: CallToolRequest)
    ensures NewStructuredTaskToolHandler(builders, structuredOnly, bind, handler)(ctx, request) ==
      Reply(Some(CallTool(NewStructuredToolHandler(builders, structuredOnly, bind, handler)(ctx, request).result.value)), None)
  {
  }
}
