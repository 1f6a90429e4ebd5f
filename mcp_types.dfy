/** Value types of the mcp package that the task-augmented tool plumbing works on.

    Go's `(*T, error)` return pair is a `Reply<T>`: a nil pointer or a nil error is `None`.
    Go's dynamically typed union interfaces become closed datatypes whose last case,
    `Other`, stands for every payload shape the type switches in the server reject. */
module Mcp {

  datatype Option<+T> = None | Some(value: T)

  /** Go errors. The two sentinels are declared outside this model; every other error is a
      `Failure` carrying its message. */
  datatype Error =
    | ErrInvalidToolResult
    | ErrInvalidResultPayload
    | Failure(message: string)

  /** `context.Context`, passed through untouched. */
  datatype Context = Context(token: nat)

  /** The JSON-RPC request id (`id any`), passed through untouched. */
  datatype RequestId = RequestId(token: nat)

  /** A tools/call request; the raw arguments are only ever read by the argument binder. */
  datatype CallToolRequest = CallToolRequest(name: string, arguments: map<string, string>)

  datatype Content = TextContent(text: string) | OtherContent(kind: string)

  /** An immediate answer. `CallToolResult{}` is `CallToolResult([], None, false)`. */
  datatype CallToolResult = CallToolResult(content: seq<Content>, structuredContent: Option<string>, isError: bool)

  const EmptyCallToolResult := CallToolResult([], None, false)

  datatype TaskStatus = Working | InputRequired | Completed | Failed | Cancelled

  /** A task handle: the work goes on in the background. */
  datatype CreateTaskResult = CreateTaskResult(taskId: string, status: TaskStatus, ttl: Option<nat>)

  /** The dynamic shapes an `mcp.AnyToolResult` interface can hold besides the two legal values:
      the nil interface, pointers to either result type (a type switch on the value types does not
      match them), or a value of some foreign type. */
  datatype OtherShape =
    | NilValue
    | CallToolPointer(callTarget: Option<CallToolResult>)
    | CreateTaskPointer(taskTarget: Option<CreateTaskResult>)
    | ForeignValue(typeName: string)

  /** `mcp.AnyToolResult`: what a task-capable tool handler returns. */
  datatype AnyToolResult =
    | CallTool(result: CallToolResult)
    | CreateTask(task: CreateTaskResult)
    | Other(shape: OtherShape)

  /** Shapes an `mcp.TaskPayloadResult` can hold besides a `*CallToolResult`. */
  datatype PayloadShape =
    | NilPayload
    | CallToolPayloadValue(payloadValue: CallToolResult)
    | CreateTaskPayload(payloadTask: CreateTaskResult)
    | ForeignPayload(payloadType: string)

  /** `mcp.TaskPayloadResult`: the value a task completes with. A typed nil pointer is
      `PtrCallToolResult(None)`. */
  datatype TaskPayloadResult =
    | PtrCallToolResult(target: Option<CallToolResult>)
    | OtherPayload(payload: PayloadShape)

  /** Go's `(*T, error)`. */
  datatype Reply<+T> = Reply(result: Option<T>, err: Option<Error>)

  /** `server.ToolHandlerFunc`: a synchronous-only handler. */
  type ToolHandlerFunc = (Context, CallToolRequest) -> Reply<CallToolResult>

  /** `server.TaskToolHandlerFunc`: a handler that may answer with either union case. */
  type TaskToolHandlerFunc = (Context, CallToolRequest) -> Reply<AnyToolResult>
}
