/** The task-augmented result plumbing of server/task_tool.go: the two validators, the forward
    adaptor from a synchronous handler to a task-capable one, the adaptor that runs a legacy
    middleware around a task-capable handler, the two hook adaptors, the bulk tool adaptor and the
    task-support predicate. */
module TaskTool {
  import opened Mcp
  import Slices

  // ---------------------------------------------------------------- validators

  /** `ValidateAnyToolResult`: a non-nil union value holding one of the two legal cases passes;
      nil and every other shape fail with `ErrInvalidToolResult`. */
  function ValidateAnyToolResult(value: Option<AnyToolResult>): (err: Option<Error>)
    ensures err == None <==> value.Some? && (value.value.CallTool? || value.value.CreateTask?)
    ensures err != None ==> err == Some(ErrInvalidToolResult)
  {
    match value
    case None => Some(ErrInvalidToolResult)
    case Some(v) =>
      match v
      case CallTool(_) => None
      case CreateTask(_) => None
      case Other(_) => Some(ErrInvalidToolResult)
  }

  /** `ValidateTaskPayload`: only a `*CallToolResult` (even a typed nil one) passes; every other
      payload fails with `ErrInvalidResultPayload`. */
  function ValidateTaskPayload(value: TaskPayloadResult): (err: Option<Error>)
    ensures err == None <==> value.PtrCallToolResult?
    ensures err != None ==> err == Some(ErrInvalidResultPayload)
  {
    match value
    case PtrCallToolResult(_) => None
    case OtherPayload(_) => Some(ErrInvalidResultPayload)
  }

  /** A reply a task-capable handler may legally give: an error and no result, or no error and a
      result that passes `ValidateAnyToolResult`. */
  predicate ValidReply(reply: Reply<AnyToolResult>)
  {
    if reply.err.Some? then reply.result.None? else ValidateAnyToolResult(reply.result).None?
  }

  // ---------------------------------------------------------------- forward adaptor

  /** What the closure of `NewTaskToolAdaptor` makes of the synchronous handler's reply. */
  function ForwardReply(out: Reply<CallToolResult>): (reply: Reply<AnyToolResult>)
    ensures ValidReply(reply)
  {
    if out.err.Some? then Reply(None, out.err)
    else if out.result.None? then Reply(None, Some(ErrInvalidToolResult))
    else Reply(Some(CallTool(out.result.value)), None)
  }

  /** `NewTaskToolAdaptor`: the handler's error comes out unchanged with no result, a nil result
      without an error becomes `ErrInvalidToolResult`, and otherwise the answer is the handler's
      result as the immediate-result case; every answer is a valid reply. */
  function NewTaskToolAdaptor(handler: ToolHandlerFunc): (adapted: TaskToolHandlerFunc)
    ensures forall ctx, request :: ValidReply(adapted(ctx, request))
    ensures forall ctx, request :: handler(ctx, request).err.Some? ==>
      adapted(ctx, request) == Reply(None, handler(ctx, request).err)
    ensures forall ctx, request :: handler(ctx, request) == Reply(None, None) ==>
      adapted(ctx, request) == Reply(None, Some(ErrInvalidToolResult))
    ensures forall ctx, request :: handler(ctx, request).err.None? && handler(ctx, request).result.Some? ==>
      adapted(ctx, request) == Reply(Some(CallTool(handler(ctx, request).result.value)), None)
  {
    var adapted := (ctx: Context, request: CallToolRequest) => ForwardReply(handler(ctx, request));
    assert forall ctx, request :: adapted(ctx, request) == ForwardReply(handler(ctx, request));
    adapted
  }

  /** A synchronous reply that carries exactly one of a result and an error. */
  predicate SingleOutcome(out: Reply<CallToolResult>)
  {
    out.result.Some? != out.err.Some?
  }

  /** The middleware adaptor's inner closure undoes the forward adaptor: a synchronous reply with
      exactly one of a result and an error comes back unchanged. */
  lemma LowerUndoesForward(out: Reply<CallToolResult>)
    requires SingleOutcome(out)
    ensures Lower(ForwardReply(out)) == out
  {
  }

  /** The forward adaptor undoes the inner closure on every valid reply that is not a task handle. */
  lemma ForwardUndoesLower(reply: Reply<AnyToolResult>)
    requires ValidReply(reply)
    requires !(reply.result.Some? && reply.result.value.CreateTask?)
    ensures ForwardReply(Lower(reply)) == reply
  {
  }

  // ---------------------------------------------------------------- middleware adaptor

  /** What a legacy middleware does with a call before the handler it wraps: hand the call on
      (possibly with another context or request), or answer it itself. */
  datatype Step = Proceed(ctx: Context, request: CallToolRequest) | Respond(reply: Reply<CallToolResult>)

  /** A legacy `server.ToolHandlerMiddleware` that calls the handler it wraps at most once:
      `before` decides whether to call it, `after` maps its reply to the middleware's reply. */
  datatype ToolHandlerMiddleware = ToolHandlerMiddleware(
    before: (Context, CallToolRequest) -> Step,
    after: (Context, CallToolRequest, Reply<CallToolResult>) -> Reply<CallToolResult>)

  /** A middleware that neither changes the call nor the reply. */
  ghost predicate PassesThrough(middleware: ToolHandlerMiddleware)
  {
    && (forall ctx, request :: middleware.before(ctx, request) == Proceed(ctx, request))
    && (forall ctx, request, reply :: middleware.after(ctx, request, reply) == reply)
  }

  /** `targetMiddleware(next)`: the legacy middleware applied to a synchronous handler. A call the
      middleware answers itself never reaches `next`; a call it hands on reaches `next` once, and
      the middleware's reply is its `after` of `next`'s reply. A pass-through middleware changes
      nothing. */
  function Wrap(middleware: ToolHandlerMiddleware, next: ToolHandlerFunc): (wrapped: ToolHandlerFunc)
    ensures forall ctx, request :: middleware.before(ctx, request).Respond? ==>
      wrapped(ctx, request) == middleware.before(ctx, request).reply
    ensures forall ctx, request :: middleware.before(ctx, request).Proceed? ==>
      wrapped(ctx, request) ==
        middleware.after(ctx, request, next(middleware.before(ctx, request).ctx, middleware.before(ctx, request).request))
    ensures PassesThrough(middleware) ==> forall ctx, request :: wrapped(ctx, request) == next(ctx, request)
  {
    (ctx: Context, request: CallToolRequest) =>
      match middleware.before(ctx, request)
      case Respond(reply) => reply
      case Proceed(c, q) => middleware.after(ctx, request, next(c, q))
  }

  /** The reply the inner closure of the middleware adaptor gives the legacy middleware for a
      reply of the task-capable handler: errors pass, an immediate result passes, and anything else
      (a task handle, a nil result, an illegal shape) becomes the empty `CallToolResult{}`. */
  function Lower(out: Reply<AnyToolResult>): (reply: Reply<CallToolResult>)
    ensures SingleOutcome(reply)
    ensures out.err.Some? ==> reply.err == out.err
    ensures out.err.None? && out.result.Some? && out.result.value.CallTool? ==> reply.result == Some(out.result.value.result)
    ensures out.err.None? && !(out.result.Some? && out.result.value.CallTool?) ==> reply.result == Some(EmptyCallToolResult)
  {
    if out.err.Some? then Reply(None, out.err)
    else if out.result.Some? && out.result.value.CallTool? then Reply(Some(out.result.value.result), None)
    else Reply(Some(EmptyCallToolResult), None)
  }

  /** The slot after the inner closure has seen `out`: a task handle without an error is stored,
      and the slot is otherwise unchanged; it is never cleared. */
  function Capture(out: Reply<AnyToolResult>, slot: Option<CreateTaskResult>): (slot': Option<CreateTaskResult>)
    ensures slot.Some? ==> slot'.Some?
    ensures slot' != slot ==> out == Reply(Some(CreateTask(slot'.value)), None)
    ensures forall task :: out == Reply(Some(CreateTask(task)), None) ==> slot' == Some(task)
  {
    if out.err.None? && out.result.Some? && out.result.value.CreateTask? then Some(out.result.value.task) else slot
  }

  /** The task-capable handler as the legacy middleware sees it. */
  function Lowered(next: TaskToolHandlerFunc): ToolHandlerFunc
  {
    (ctx: Context, request: CallToolRequest) => Lower(next(ctx, request))
  }

  /** The slot after the legacy chain has run once: it changes only when the middleware hands the
      call on, and then as the inner closure's call of `next` changes it. */
  function ChainCapture(middleware: ToolHandlerMiddleware, next: TaskToolHandlerFunc, slot: Option<CreateTaskResult>,
                        ctx: Context, request: CallToolRequest): (slot': Option<CreateTaskResult>)
    ensures middleware.before(ctx, request).Respond? ==> slot' == slot
    ensures middleware.before(ctx, request).Proceed? ==>
      slot' == Capture(next(middleware.before(ctx, request).ctx, middleware.before(ctx, request).request), slot)
    ensures slot.Some? ==> slot'.Some?
  {
    match middleware.before(ctx, request)
    case Respond(_) => slot
    case Proceed(c, q) => Capture(next(c, q), slot)
  }

  /** The outer closure's answer once the legacy chain has replied: a chain error wins, then a
      captured task handle, then the chain's own result; a nil result is `ErrInvalidToolResult`. */
  function Conclude(slot: Option<CreateTaskResult>, legacy: Reply<CallToolResult>): (reply: Reply<AnyToolResult>)
    ensures ValidReply(reply)
  {
    if legacy.err.Some? then Reply(None, legacy.err)
    else if slot.Some? then Reply(Some(CreateTask(slot.value)), None)
    else if legacy.result.None? then Reply(None, Some(ErrInvalidToolResult))
    else Reply(Some(CallTool(legacy.result.value)), None)
  }

  datatype AdaptorStep = AdaptorStep(reply: Reply<AnyToolResult>, taskResult: Option<CreateTaskResult>)

  /** One call of the adapted handler whose slot holds `slot` beforehand: its answer and the slot
      afterwards. The answer is always a valid reply, and the slot is never cleared. */
  function AdaptedCall(middleware: ToolHandlerMiddleware, next: TaskToolHandlerFunc, slot: Option<CreateTaskResult>,
                       ctx: Context, request: CallToolRequest): (step: AdaptorStep)
    ensures ValidReply(step.reply)
    ensures slot.Some? ==> step.taskResult.Some?
  {
    var legacy := Wrap(middleware, Lowered(next))(ctx, request);
    var slot' := ChainCapture(middleware, next, slot, ctx, request);
    AdaptorStep(Conclude(slot', legacy), slot')
  }

  /** The heap cell `new(*mcp.CreateTaskResult)`: `None` is the nil pointer it starts with. */
  class TaskSlot {
    var task: Option<CreateTaskResult>

    constructor ()
      ensures task == None
    {
      task := None;
    }
  }

  /** The closure handed to the legacy middleware: call the task-capable handler, pass an
      immediate result or error on, and park a task handle in the slot behind a placeholder. */
  method CallNext(next: TaskToolHandlerFunc, taskResult: TaskSlot, ctx: Context, request: CallToolRequest)
    returns (reply: Reply<CallToolResult>)
    modifies taskResult
    ensures reply == Lower(next(ctx, request))
    ensures taskResult.task == Capture(next(ctx, request), old(taskResult.task))
  {
    var anyResult := next(ctx, request);
    if anyResult.err.Some? {
      return Reply(None, anyResult.err);
    }
    if anyResult.result.Some? {
      match anyResult.result.value {
        case CallTool(nextResult) =>
          return Reply(Some(nextResult), None);
        case CreateTask(nextResult) =>
          taskResult.task := Some(nextResult);
        case Other(_) =>
      }
    }
    return Reply(Some(EmptyCallToolResult), None);
  }

  /** `adapted(ctx, request)`: the legacy middleware run over `CallNext`. */
  method RunLegacyChain(middleware: ToolHandlerMiddleware, next: TaskToolHandlerFunc, taskResult: TaskSlot,
                        ctx: Context, request: CallToolRequest)
    returns (legacy: Reply<CallToolResult>)
    modifies taskResult
    ensures legacy == Wrap(middleware, Lowered(next))(ctx, request)
    ensures taskResult.task == ChainCapture(middleware, next, old(taskResult.task), ctx, request)
  {
    match middleware.before(ctx, request) {
      case Respond(r) =>
        legacy := r;
      case Proceed(c, q) =>
        var inner := CallNext(next, taskResult, c, q);
        legacy := middleware.after(ctx, request, inner);
    }
  }

  /** The outer closure's tail: read the slot after the legacy chain has returned. */
  method Finish(taskResult: TaskSlot, legacy: Reply<CallToolResult>) returns (reply: Reply<AnyToolResult>)
    ensures reply == Conclude(taskResult.task, legacy)
  {
    if legacy.err.Some? {
      return Reply(None, legacy.err);
    }
    if taskResult.task.Some? {
      return Reply(Some(CreateTask(taskResult.task.value)), None);
    }
    if legacy.result.None? {
      return Reply(None, Some(ErrInvalidToolResult));
    }
    return Reply(Some(CallTool(legacy.result.value)), None);
  }

  /** `NewTaskToolHandlerMiddlewareAdaptor(targetMiddleware)(next)`: the slot is allocated once,
      when the adaptor is applied to `next`, and is shared by every later call. */
  class MiddlewareAdaptedHandler {
    const targetMiddleware: ToolHandlerMiddleware
    const next: TaskToolHandlerFunc
    const taskResult: TaskSlot

    constructor (targetMiddleware: ToolHandlerMiddleware, next: TaskToolHandlerFunc)
      ensures this.targetMiddleware == targetMiddleware && this.next == next
      ensures fresh(taskResult) && taskResult.task == None
    {
      this.targetMiddleware := targetMiddleware;
      this.next := next;
      taskResult := new TaskSlot();
    }

    /** One call of the adapted handler: its answer and the new slot are those of `AdaptedCall`
        from the slot left by the previous calls. */
    method Handle(ctx: Context, request: CallToolRequest) returns (reply: Reply<AnyToolResult>)
      modifies taskResult
      ensures AdaptorStep(reply, taskResult.task) == AdaptedCall(targetMiddleware, next, old(taskResult.task), ctx, request)
    {
      var legacy := RunLegacyChain(targetMiddleware, next, taskResult, ctx, request);
      reply := Finish(taskResult, legacy);
    }
  }

  /** The middleware adaptor with a slot allocated per call instead of per adapted handler: every
      call is answered as the first call of a fresh adaptor. */
  method HandleWithCallScopedSlot(targetMiddleware: ToolHandlerMiddleware, next: TaskToolHandlerFunc,
                                  ctx: Context, request: CallToolRequest)
    returns (reply: Reply<AnyToolResult>)
    ensures reply == AdaptedCall(targetMiddleware, next, None, ctx, request).reply
    ensures ValidReply(reply)
  {
    var taskResult := new TaskSlot();
    var legacy := RunLegacyChain(targetMiddleware, next, taskResult, ctx, request);
    reply := Finish(taskResult, legacy);
  }

  /** On a fresh slot, the adapted handler over a task-capable handler that does not hand out a
      task answers as the forward adaptor over the legacy middleware applied to that handler. */
  lemma FreshAdaptorMatchesLegacy(middleware: ToolHandlerMiddleware, next: TaskToolHandlerFunc, ctx: Context, request: CallToolRequest)
    requires ChainCapture(middleware, next, None, ctx, request) == None
    ensures AdaptedCall(middleware, next, None, ctx, request).reply ==
      NewTaskToolAdaptor(Wrap(middleware, Lowered(next)))(ctx, request)
  {
  }

  /** Immediate results: through a pass-through middleware a fresh adaptor answers exactly what a
      handler answering an immediate result answers. */
  lemma ImmediateResultPassesThrough(middleware: ToolHandlerMiddleware, next: TaskToolHandlerFunc, ctx: Context, request: CallToolRequest, result: CallToolResult)
    requires PassesThrough(middleware)
    requires next(ctx, request) == Reply(Some(CallTool(result)), None)
    ensures AdaptedCall(middleware, next, None, ctx, request) == AdaptorStep(Reply(Some(CallTool(result)), None), None)
  {
  }

  /** Task results: the middleware sees the empty placeholder, and the answer is the task handle
      whatever the middleware made of the placeholder, unless the middleware answered an error. */
  lemma TaskResultIsCaptured(middleware: ToolHandlerMiddleware, next: TaskToolHandlerFunc, slot: Option<CreateTaskResult>,
                             ctx: Context, request: CallToolRequest, c: Context, q: CallToolRequest, task: CreateTaskResult)
    requires middleware.before(ctx, request) == Proceed(c, q)
    requires next(c, q) == Reply(Some(CreateTask(task)), None)
    ensures Lowered(next)(c, q) == Reply(Some(EmptyCallToolResult), None)
    ensures AdaptedCall(middleware, next, slot, ctx, request).taskResult == Some(task)
    ensures AdaptedCall(middleware, next, slot, ctx, request).reply ==
      var legacy := middleware.after(ctx, request, Reply(Some(EmptyCallToolResult), None));
      if legacy.err.Some? then Reply(None, legacy.err) else Reply(Some(CreateTask(task)), None)
  {
  }

  /** Errors: an error answered by the legacy chain comes out with no result, whatever the slot
      holds; with no task captured, a nil result from the chain is `ErrInvalidToolResult`. */
  lemma ChainErrorsPropagate(middleware: ToolHandlerMiddleware, next: TaskToolHandlerFunc, slot: Option<CreateTaskResult>,
                             ctx: Context, request: CallToolRequest)
    ensures var legacy := Wrap(middleware, Lowered(next))(ctx, request);
      legacy.err.Some? ==> AdaptedCall(middleware, next, slot, ctx, request).reply == Reply(None, legacy.err)
    ensures var legacy := Wrap(middleware, Lowered(next))(ctx, request);
      legacy == Reply(None, None) && ChainCapture(middleware, next, slot, ctx, request) == None ==>
        AdaptedCall(middleware, next, slot, ctx, request).reply == Reply(None, Some(ErrInvalidToolResult))
  {
  }

  /** An error of the task-capable handler reaches the legacy middleware as that error; through a
      pass-through middleware it comes out unchanged. */
  lemma HandlerErrorPropagates(middleware: ToolHandlerMiddleware, next: TaskToolHandlerFunc, slot: Option<CreateTaskResult>,
                               ctx: Context, request: CallToolRequest, e: Error)
    requires next(ctx, request).err == Some(e)
    ensures Lowered(next)(ctx, request) == Reply(None, Some(e))
    ensures PassesThrough(middleware) ==> AdaptedCall(middleware, next, slot, ctx, request) == AdaptorStep(Reply(None, Some(e)), slot)
  {
  }

  /** A nil result or an illegal shape from the task-capable handler is not reported: the legacy
      middleware sees the empty placeholder, and through a pass-through middleware a fresh adaptor
      answers that placeholder as an immediate result. */
  lemma InvalidResultBecomesPlaceholder(middleware: ToolHandlerMiddleware, next: TaskToolHandlerFunc, ctx: Context, request: CallToolRequest)
    requires next(ctx, request).err.None?
    requires next(ctx, request).result.None? || next(ctx, request).result.value.Other?
    requires PassesThrough(middleware)
    ensures ValidateAnyToolResult(next(ctx, request).result) == Some(ErrInvalidToolResult)
    ensures AdaptedCall(middleware, next, None, ctx, request) == AdaptorStep(Reply(Some(CallTool(EmptyCallToolResult)), None), None)
  {
  }

  /** A captured task sticks: once the slot holds a task, every later call that the legacy chain
      does not answer with an error answers a task handle, never an immediate result. */
  lemma CapturedTaskSticks(middleware: ToolHandlerMiddleware, next: TaskToolHandlerFunc, task: CreateTaskResult,
                           ctx: Context, request: CallToolRequest)
    requires Wrap(middleware, Lowered(next))(ctx, request).err.None?
    ensures AdaptedCall(middleware, next, Some(task), ctx, request).reply.result.Some?
    ensures AdaptedCall(middleware, next, Some(task), ctx, request).reply.result.value.CreateTask?
  {
  }

  /** The shared slot as written: a handler that defers a call named "defer" and answers every
      other call at once. After a deferred call, the adapted handler answers the next, immediate,
      call with the stale task handle of the earlier call. */
  lemma StaleTaskAnswersLaterCall(task: CreateTaskResult, result: CallToolResult, ctx: Context)
    ensures
      var middleware := ToolHandlerMiddleware((c: Context, q: CallToolRequest) => Proceed(c, q),
                                              (c: Context, q: CallToolRequest, r: Reply<CallToolResult>) => r);
      var next := (c: Context, q: CallToolRequest) =>
        if q.name == "defer" then Reply(Some(CreateTask(task)), None) else Reply(Some(CallTool(result)), None);
      var first := AdaptedCall(middleware, next, None, ctx, CallToolRequest("defer", map[]));
      var second := AdaptedCall(middleware, next, first.taskResult, ctx, CallToolRequest("brew", map[]));
      && next(ctx, CallToolRequest("brew", map[])) == Reply(Some(CallTool(result)), None)
      && first.reply == Reply(Some(CreateTask(task)), None)
      && second.reply == Reply(Some(CreateTask(task)), None)
  {
  }

  /** With a slot per call, the same two calls are answered with their own results. */
  lemma CallScopedSlotAnswersEachCall(task: CreateTaskResult, result: CallToolResult, ctx: Context)
    ensures
      var middleware := ToolHandlerMiddleware((c: Context, q: CallToolRequest) => Proceed(c, q),
                                              (c: Context, q: CallToolRequest, r: Reply<CallToolResult>) => r);
      var next := (c: Context, q: CallToolRequest) =>
        if q.name == "defer" then Reply(Some(CreateTask(task)), None) else Reply(Some(CallTool(result)), None);
      && AdaptedCall(middleware, next, None, ctx, CallToolRequest("defer", map[])).reply == Reply(Some(CreateTask(task)), None)
      && AdaptedCall(middleware, next, None, ctx, CallToolRequest("brew", map[])).reply == Reply(Some(CallTool(result)), None)
  {
  }

  // ---------------------------------------------------------------- hooks

  /** The `*Hooks` the adaptors forward to, identified by a token. */
  datatype Hooks = Hooks(token: nat)

  /** A call of a legacy hook, as recorded in a trace. */
  datatype HookCall =
    | BeforeCallTool(hooks: Hooks, ctx: Context, id: RequestId, message: CallToolRequest)
    | AfterCallTool(hooks: Hooks, ctx: Context, id: RequestId, message: CallToolRequest, result: CallToolResult)

  /** A task-capable hook, as the trace of legacy hook calls it makes. */
  type OnBeforeAnyToolFunc = (Context, RequestId, CallToolRequest) -> seq<HookCall>

  type OnAfterAnyToolFunc = (Context, RequestId, CallToolRequest, Option<AnyToolResult>) -> seq<HookCall>

  /** `NewTaskToolBeforeHookAdaptor`: exactly one legacy before-hook call, with the same arguments. */
  function NewTaskToolBeforeHookAdaptor(hooks: Hooks): (adaptor: OnBeforeAnyToolFunc)
    ensures forall ctx, id, message :: adaptor(ctx, id, message) == [BeforeCallTool(hooks, ctx, id, message)]
  {
    (ctx: Context, id: RequestId, message: CallToolRequest) => [BeforeCallTool(hooks, ctx, id, message)]
  }

  /** `NewTaskToolAfterHookAdaptor`: one legacy after-hook call with the immediate result when the
      result is one, and no call for a task handle, a nil result or an illegal shape. */
  function NewTaskToolAfterHookAdaptor(hooks: Hooks): (adaptor: OnAfterAnyToolFunc)
    ensures forall ctx, id, message, result :: |adaptor(ctx, id, message, result)| <= 1
    ensures forall ctx, id, message, result ::
      adaptor(ctx, id, message, result) != [] <==> result.Some? && result.value.CallTool?
    ensures forall ctx, id, message, result: Option<AnyToolResult> :: result.Some? && result.value.CallTool? ==>
      adaptor(ctx, id, message, result) == [AfterCallTool(hooks, ctx, id, message, result.value.result)]
  {
    (ctx: Context, id: RequestId, message: CallToolRequest, result: Option<AnyToolResult>) =>
      if result.Some? && result.value.CallTool? then [AfterCallTool(hooks, ctx, id, message, result.value.result)]
      else []
  }

  // ---------------------------------------------------------------- tool registrations

  datatype ToolTaskSupport = NotSupported | Optional | Required

  datatype ToolExecution = ToolExecution(taskSupport: ToolTaskSupport)

  datatype Tool = Tool(name: string, execution: ToolExecution)

  /** `server.ServerTool`: a tool with a synchronous-only handler. */
  datatype ServerTool = ServerTool(tool: Tool, handler: ToolHandlerFunc)

  /** `server.ServerTaskTool`: a tool with a task-capable handler. */
  datatype ServerTaskTool = ServerTaskTool(tool: Tool, handler: TaskToolHandlerFunc)

  /** `AdaptTools`: the i-th task tool is `tools[i].ToTaskTool()`, in order; `toTaskTool` stands
      for `ServerTool.ToTaskTool`. */
  method AdaptTools(tools: seq<ServerTool>, toTaskTool: ServerTool -> ServerTaskTool) returns (taskTools: seq<ServerTaskTool>)
    ensures |taskTools| == |tools|
    ensures forall i :: 0 <= i < |tools| ==> taskTools[i] == toTaskTool(tools[i])
  {
    taskTools := [];
    var n := 0;
    while n < |tools|
      invariant 0 <= n <= |tools|
      invariant |taskTools| == n
      invariant forall i :: 0 <= i < n ==> taskTools[i] == toTaskTool(tools[i])
    {
      taskTools := taskTools + [toTaskTool(tools[n])];
      n := n + 1;
    }
  }

  /** The predicate handed to `slices.IndexFunc`: the tool may answer with a task handle, that is,
      its task support is anything but NotSupported. */
  predicate TaskAugmented(tool: ServerTaskTool): (b: bool)
    ensures b <==> tool.tool.execution.taskSupport != NotSupported
  {
    tool.tool.execution.taskSupport == Optional || tool.tool.execution.taskSupport == Required
  }

  /** `containTaskAugmented`: some tool declares Optional or Required task support. */
  function ContainTaskAugmented(tools: seq<ServerTaskTool>): (b: bool)
    ensures b <==> exists i :: 0 <= i < |tools| && TaskAugmented(tools[i])
  {
    Slices.IndexFunc(tools, TaskAugmented) >= 0
  }

  /** When `ToTaskTool` keeps each tool definition, the adapted tools need task support advertised
      exactly when some original tool declares Optional or Required support. */
  lemma AdaptedToolsAdvertiseTasks(tools: seq<ServerTool>, toTaskTool: ServerTool -> ServerTaskTool, taskTools: seq<ServerTaskTool>)
    requires |taskTools| == |tools|
    requires forall i :: 0 <= i < |tools| ==> taskTools[i] == toTaskTool(tools[i])
    requires forall t :: toTaskTool(t).tool == t.tool
    ensures ContainTaskAugmented(taskTools) <==>
      exists i :: 0 <= i < |tools| && tools[i].tool.execution.taskSupport in {Optional, Required}
  {
  }
}
