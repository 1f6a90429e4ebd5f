# Task-augmented tool results of mcp-go, modelled in Dafny

This project models the part of mcp-go's server that lets a tool handler answer a `tools/call`
request either immediately (a `CallToolResult`) or with a task handle (a `CreateTaskResult`) while
the work goes on in the background. It covers:

- the closed result union `AnyToolResult` and the narrower task payload union `TaskPayloadResult`,
  with the two validators that check their shape (`server/task_tool.go`);
- the forward adaptor that makes a synchronous handler task-capable;
- the middleware adaptor that runs a legacy synchronous middleware around a task-capable handler,
  with its side-channel slot for a task handle modelled as a heap cell (`TaskSlot`) shared by every
  call of the adapted handler, as in the source;
- the before- and after-hook adaptors, as functions returning the trace of legacy hook calls they
  make;
- `AdaptTools` (a loop building the adapted tool list) and `containTaskAugmented`;
- the four typed-argument binders of `mcp/typed_tools.go`.

Files: `mcp_types.dfy` (module `Mcp`, the value types), `slices.dfy` (module `Slices`, Go's
`slices.IndexFunc`), `typed_tools.dfy` (module `TypedTools`), `task_tool.dfy` (module `TaskTool`)
and `properties.dfy` (module `Properties`, lemmas relating the binders to the adaptors).

Go's `(*T, error)` pair is `Reply<T>`, with `None` for a nil pointer or a nil error. Handlers are
total function values. The collaborators whose code is not part of this model are parameters:
`request.BindArguments` is a `Binder<T>` returning the bound value or an error;
`NewToolResultError` and `err.Error()` (what `%v` prints) are the fields of an `ErrorResults`;
`NewToolResultStructuredOnly` is a further argument of the two structured binders;
`ServerTool.ToTaskTool` is a function argument of `AdaptTools`.

A legacy middleware is a `ToolHandlerMiddleware` record: `before` either hands the call on (maybe
with a changed context or request) or answers it itself, and `after` maps the wrapped handler's
reply to the middleware's reply. `Wrap` applies it to a synchronous handler. The middleware adaptor
is the class `MiddlewareAdaptedHandler`: its constructor is the application of
`NewTaskToolHandlerMiddlewareAdaptor(targetMiddleware)` to `next`, which allocates the slot
(server/task_tool.go:49); `CallNext` is the inner closure that writes the slot (line 60); `Handle`
runs the legacy chain and reads the slot afterwards (line 71). The pure function `AdaptedCall`
describes one call from a given slot value, and the lemmas about later calls thread the slot from
one call to the next.

The methods that work on the heap slot each have a pure twin that specifies them: `CallNext` is
specified by `Lower` and `Capture`, `RunLegacyChain` by `Wrap` and `ChainCapture`, and `Finish` by
`Conclude`. `Lowered(next)` is the inner closure as a function value, `Lower` of `next`'s reply. Each method's `ensures` equates its reply and the new slot with its twin's, and the
lemmas about the adaptor's behaviour are stated on the pure twins.

Behaviour of the code that a caller may not expect, modelled as written:

- A handler that can be called again is expected to answer each call on its own. The code
  allocates the slot once per adapted handler (server/task_tool.go:49) and never clears it, so a
  task handle captured by one call also answers later calls; see Findings.
- The inner closure passes an immediate result straight through and replaces a task handle with
  the empty `CallToolResult{}` placeholder (server/task_tool.go:55-64). It also replaces a nil
  result and an illegally shaped result with that placeholder, so the adapted handler answers them
  as an empty success rather than with `ErrInvalidToolResult`, which `NewTaskToolAdaptor` reports
  for a nil result (`InvalidResultBecomesPlaceholder`).
- A caller of the structured task binder expects every outcome as the immediate-result case, as
  its two error paths give it (mcp/typed_tools.go:66, 72). Its success path stores a pointer
  instead (mcp/typed_tools.go:77); see Findings.
- `ValidateTaskPayload` accepts any `*CallToolResult`, a typed nil pointer included, and rejects a
  `CallToolResult` value (server/task_tool.go:25-31). Open observation: the example worker builds its
  completion payload as exactly such a value and passes a pointer to it to `CompleteTask`
  (examples/task_augmented_tools/main.go:178-183). Whether `CompleteTask` validates the payload it
  receives is not part of this model, so whether that completion is rejected is left open.

## Model

| member | source | states |
|---|---|---|
| `Slices.IndexFunc` | server/task_tool.go:110-112 | the result is -1 when no element satisfies the predicate, else the index of the first element that does |
| `TaskTool.ValidateAnyToolResult` | server/task_tool.go:11-22 | no error exactly when the value is non-nil and holds a `CallToolResult` or a `CreateTaskResult`; otherwise `ErrInvalidToolResult` |
| `TaskTool.ValidateTaskPayload` | server/task_tool.go:25-31 | no error exactly when the payload is a `*CallToolResult`; otherwise `ErrInvalidResultPayload` |
| `TaskTool.Wrap` | server/task_tool.go:50-67 | `targetMiddleware(...)` applied and run: a call the middleware answers itself never reaches the wrapped handler, a call it hands on reaches it and the middleware's `after` maps its reply, and a pass-through middleware changes nothing |
| `TaskTool.Lower` | server/task_tool.go:51-64 | the inner closure's reply always carries exactly one of a result and an error: the handler's error, its immediate result, or else the empty placeholder |
| `TaskTool.Capture` | server/task_tool.go:59-60 | a task handle returned without an error is written to the slot; nothing else changes the slot, and it is never cleared |
| `TaskTool.ChainCapture` | server/task_tool.go:50-67 | the slot changes only when the middleware hands the call on, and then as the inner closure's call of the handler writes it; a held task stays |
| `TaskTool.ForwardReply` | server/task_tool.go:35-43 | every reply of the forward adaptor's closure is valid: an error with no result, or a result that passes `ValidateAnyToolResult` |
| `TaskTool.NewTaskToolAdaptor` | server/task_tool.go:33-45 | the handler's error comes out unchanged with no result; nil without an error becomes `ErrInvalidToolResult`; otherwise the handler's result is the immediate-result case; every reply is valid |
| `TaskTool.LowerUndoesForward` | server/task_tool.go:50-64 | the middleware adaptor's inner closure gives back any synchronous reply with exactly one of a result and an error after the forward adaptor |
| `TaskTool.ForwardUndoesLower` | server/task_tool.go:35-43 | the forward adaptor gives back every valid reply that is not a task handle after the inner closure |
| `TaskTool.Conclude` | server/task_tool.go:66-80 | whatever the slot and the legacy chain's reply, the adapted handler's reply is valid |
| `TaskTool.AdaptedCall` | server/task_tool.go:47-80 | one call of the adapted handler always gives a valid reply, and a slot holding a task still holds one afterwards |
| `TaskTool.TaskSlot.constructor` | server/task_tool.go:49 | the new slot holds no task |
| `TaskTool.CallNext` | server/task_tool.go:50-65 | the inner closure replies with the handler's error or immediate result, or the empty placeholder, and stores a task handle in the slot, leaving it unchanged otherwise |
| `TaskTool.RunLegacyChain` | server/task_tool.go:50-67 | the legacy chain's reply is the legacy middleware applied to the inner closure, and the slot changes only if the middleware called it |
| `TaskTool.Finish` | server/task_tool.go:67-79 | reading the slot after the chain gives the reply `Conclude` describes |
| `TaskTool.MiddlewareAdaptedHandler.constructor` | server/task_tool.go:47-49 | applying the adaptor to `next` allocates one fresh, empty slot for the adapted handler |
| `TaskTool.MiddlewareAdaptedHandler.Handle` | server/task_tool.go:66-80 | each call's reply and new slot are `AdaptedCall`'s from the slot left by the previous calls |
| `TaskTool.HandleWithCallScopedSlot` | server/task_tool.go:47-80 | with a slot allocated per call, every call replies as the first call of a fresh adaptor, and the reply is valid |
| `TaskTool.FreshAdaptorMatchesLegacy` | server/task_tool.go:50-79 | on a fresh slot, when no task is captured, the adapted handler replies as the forward adaptor over the legacy middleware wrapped around the lowered handler |
| `TaskTool.ImmediateResultPassesThrough` | server/task_tool.go:55-79 | through a pass-through middleware, a fresh adaptor over a handler returning an immediate result returns that same result and leaves the slot empty |
| `TaskTool.TaskResultIsCaptured` | server/task_tool.go:59-74 | when the handler returns a task handle, the middleware sees the empty placeholder, the slot holds the task, and the reply is that task whatever the middleware returned, unless it returned an error |
| `TaskTool.ChainErrorsPropagate` | server/task_tool.go:66-77 | an error from the legacy chain comes out with no result whatever the slot holds; with no task captured, a nil result from the chain is `ErrInvalidToolResult` |
| `TaskTool.HandlerErrorPropagates` | server/task_tool.go:51-54 | a handler error reaches the middleware as that error, and through a pass-through middleware comes out unchanged with the slot untouched |
| `TaskTool.InvalidResultBecomesPlaceholder` | server/task_tool.go:55-64 | a nil or illegally shaped handler result, which fails validation, comes out of a fresh adaptor with a pass-through middleware as the empty immediate result |
| `TaskTool.CapturedTaskSticks` | server/task_tool.go:49-73 | once the slot holds a task, every later call the chain does not answer with an error replies with a task handle |
| `TaskTool.StaleTaskAnswersLaterCall` | server/task_tool.go:49-73 | after a call answered by a task, a later call whose handler answers immediately gets the earlier call's task handle |
| `TaskTool.CallScopedSlotAnswersEachCall` | server/task_tool.go:47-80 | with a slot per call, the same two calls get their own answers |
| `TaskTool.NewTaskToolBeforeHookAdaptor` | server/task_tool.go:84-88 | exactly one legacy before-hook call, with the same context, id and request |
| `TaskTool.NewTaskToolAfterHookAdaptor` | server/task_tool.go:90-98 | at most one legacy after-hook call, made exactly when the result is non-nil and an immediate result, and carrying that result |
| `TaskTool.AdaptTools` | server/task_tool.go:100-107 | the output has the input's length and its i-th element is `ToTaskTool` of the i-th input |
| `TaskTool.TaskAugmented` | server/task_tool.go:110-112 | the predicate closure holds exactly when a tool's task support is Optional or Required, that is, anything but NotSupported |
| `TaskTool.ContainTaskAugmented` | server/task_tool.go:109-113 | true exactly when some tool declares Optional or Required task support |
| `TaskTool.AdaptedToolsAdvertiseTasks` | server/task_tool.go:101-113 | when `ToTaskTool` keeps tool definitions, the adapted tools need task support exactly when some original tool declares Optional or Required |
| `TypedTools.NewTypedToolHandler` | mcp/typed_tools.go:18-26 | a binding failure gives the "failed to bind arguments: " error result with no Go error; a successful binding gives exactly the handler's reply for the bound arguments |
| `TypedTools.NewTypedTaskToolHandler` | mcp/typed_tools.go:29-38 | as `NewTypedToolHandler`, with the binding failure result as the immediate-result case |
| `TypedTools.NewStructuredToolHandler` | mcp/typed_tools.go:43-57 | never a Go error or a nil result; binding failure and handler error give the matching error results; success gives the structured-only result of the handler's value |
| `TypedTools.NewStructuredTaskToolHandler` | mcp/typed_tools.go:62-80 | corrected (see Findings): the same outcomes, each as the immediate-result case: never a Go error, never a task handle |
| `TypedTools.NewStructuredTaskToolHandlerAsWritten` | mcp/typed_tools.go:62-80 | never a Go error; success stores a `*CallToolResult` in the union; every other outcome as in the corrected binder |
| `TypedTools.TypedBindFailureSkipsHandler` | mcp/typed_tools.go:19-23 | on a binding failure the reply does not depend on the wrapped handler |
| `TypedTools.TypedTaskBindFailureSkipsHandler` | mcp/typed_tools.go:30-35 | on a binding failure the reply does not depend on the wrapped handler |
| `TypedTools.StructuredBindFailureSkipsHandler` | mcp/typed_tools.go:44-48 | on a binding failure neither structured binder's reply depends on the wrapped handler |
| `TypedTools.StructuredTaskMirrorsStructured` | mcp/typed_tools.go:62-80 | the task-capable structured binder replies with the synchronous one's result as the immediate-result case and no error |
| `Properties.TypedTaskMatchesForward` | mcp/typed_tools.go:29-38 | the task-capable typed binder over a forwarded handler replies as the forward adaptor over the synchronous typed binder |
| `Properties.StructuredTaskMatchesForward` | mcp/typed_tools.go:62-80 | the corrected structured task binder replies as the forward adaptor over the synchronous structured binder, and its replies pass `ValidateAnyToolResult` |
| `Properties.StructuredTaskSuccessRejected` | mcp/typed_tools.go:77-78 | as written, a successful structured task call fails validation, is not reported to the after-hook and reaches a legacy middleware as the empty placeholder; the corrected binder passes, is reported once and reaches it unchanged |

## Left out

- The task manager (`CreateTask`, `FailTask`, `CompleteTask`, `CancelTask`, `RequestInput`) and its terminal-state exclusivity: it is external and its code is not part of this model.
- The example worker in examples/task_augmented_tools/main.go: goroutines, sleeps, `select` on cancellation against a timer, elicitation, `log.Fatalf` and floating-point arithmetic are concurrency, timing and I/O.
- JSON argument binding, the contents built by `NewToolResultError` and `NewToolResultStructuredOnly`, the text of `err.Error()` (including the sentinel errors' messages) and `ServerTool.ToTaskTool`: foreign calls, passed in as function values about which nothing else is assumed.
- `NewToolResultError` and `NewToolResultStructuredOnly` are assumed to return non-nil pointers: they are typed to return a `CallToolResult` value, so the model cannot express a nil result from them. `NewToolResultError`'s result is dereferenced at mcp/typed_tools.go:33, 66 and 72, so the source relies on it being non-nil. That `NewToolResultStructuredOnly` never returns nil is this model's own assumption; the source does not rely on it (lines 55, 77). The "never a nil result" clauses of the structured binders hold because of both.
- The internals of `Hooks.beforeCallTool` and `Hooks.afterCallTool`: the hook adaptors return the trace of calls they would make instead.
- `context.Context` values, request ids and `*Hooks` are opaque tokens passed through unchanged.
- Concurrent calls of one adapted handler: the model is sequential, so the data race on the shared slot is not modelled; only its sequential effect is.
- Legacy middlewares that call the wrapped handler more than once or from another goroutine: a `ToolHandlerMiddleware` calls it at most once.
- Pointer identity (the copies `&nextResult` and `*result` make) is not modelled; values are compared.
- `ToolTaskSupport` is limited to the three declared values; any other value, such as an unset one, is not modelled.
- NewTypedToolHandler: states that a successful binding replies with the handler's reply, not that the handler runs once, because handlers are pure function values whose invocations are not observable.
- NewTypedTaskToolHandler: as NewTypedToolHandler, the single invocation of the handler is not stated, for the same reason.
- NewStructuredToolHandler: as NewTypedToolHandler, the single invocation of the handler is not stated, for the same reason.
- NewStructuredTaskToolHandler: as NewTypedToolHandler, the single invocation of the handler is not stated, for the same reason.

## Findings

| source | as written | input that shows it | evidently intended | confidence | as-written member | corrected member |
|---|---|---|---|---|---|---|
| mcp/typed_tools.go:77 | the `*CallToolResult` returned by `NewToolResultStructuredOnly` is stored in the union without dereferencing it, unlike lines 66 and 72 | any call whose arguments bind and whose handler returns no error: the reply fails `ValidateAnyToolResult` and the after-hook is not called | store the `CallToolResult` value, as the error paths do | high: line 55 returns `NewToolResultStructuredOnly(result)` as the `*CallToolResult` of a function declared to return `(*CallToolResult, error)`, so it is a pointer; not executed | `Properties.StructuredTaskSuccessRejected` | `TypedTools.NewStructuredTaskToolHandler` |
| server/task_tool.go:49 | the task slot is allocated once per adapted handler and never cleared | with a pass-through middleware, a first call answered by a task handle, then a call whose handler answers immediately: the second call returns the first call's task handle | a fresh slot per call | high for what the code does: the slot is allocated once per adapted handler and never cleared; the stale answer shows only when a caller calls the same adapted handler twice, which no caller in the visible source does, and the server code that builds handler chains is not part of this model; not executed | `TaskTool.StaleTaskAnswersLaterCall` | `TaskTool.HandleWithCallScopedSlot` |
