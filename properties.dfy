/** Properties that relate the typed binders of mcp/typed_tools.go to the adaptors of
    server/task_tool.go. */
module Properties {
  import opened Mcp
  import opened TypedTools
  import opened TaskTool

  /** A typed handler made task-capable by the forward adaptor after binding. */
  function ForwardTyped<T>(handler: TypedToolHandlerFunc<T>): TypedTaskToolHandlerFunc<T>
  {
    (ctx: Context, request: CallToolRequest, args: T) => ForwardReply(handler(ctx, request, args))
  }

  /** Binding then forwarding is forwarding then binding: the task-capable typed binder over the
      forwarded handler answers as the forward adaptor over the synchronous typed binder. */
  lemma TypedTaskMatchesForward<T>(builders: ErrorResults, bind: Binder<T>, handler: TypedToolHandlerFunc<T>,
                                      ctx: Context, request: CallToolRequest)
    ensures NewTypedTaskToolHandler(builders, bind, ForwardTyped(handler))(ctx, request) ==
      NewTaskToolAdaptor(NewTypedToolHandler(builders, bind, handler))(ctx, request)
  {
  }

  /** The task-capable structured binder answers as the forward adaptor over the synchronous one,
      so every answer it gives passes `ValidateAnyToolResult`. */
  lemma StructuredTaskMatchesForward<A, R>(builders: ErrorResults, structuredOnly: R -> CallToolResult, bind: Binder<A>, handler: StructuredToolHandlerFunc<A, R>,
                                           ctx: Context, request: CallToolRequest)
    ensures NewStructuredTaskToolHandler(builders, structuredOnly, bind, handler)(ctx, request) ==
      NewTaskToolAdaptor(NewStructuredToolHandler(builders, structuredOnly, bind, handler))(ctx, request)
    ensures ValidateAnyToolResult(NewStructuredTaskToolHandler(builders, structuredOnly, bind, handler)(ctx, request).result) == None
  {
  }

  /** The structured task binder as written: a successful call's answer fails
      `ValidateAnyToolResult`, is not reported to the legacy after-hook, and reaches a legacy
      middleware as the empty placeholder, so the structured result is lost; the corrected binder
      passes validation and is reported. */
  lemma StructuredTaskSuccessRejected<A, R>(builders: ErrorResults, structuredOnly: R -> CallToolResult, bind: Binder<A>, handler: StructuredToolHandlerFunc<A, R>,
                                            hooks: Hooks, ctx: Context, id: RequestId, request: CallToolRequest)
    requires bind(request).Bound?
    requires handler(ctx, request, bind(request).args).err.None?
    ensures var asWritten := NewStructuredTaskToolHandlerAsWritten(builders, structuredOnly, bind, handler);
      && ValidateAnyToolResult(asWritten(ctx, request).result) == Some(ErrInvalidToolResult)
      && NewTaskToolAfterHookAdaptor(hooks)(ctx, id, request, asWritten(ctx, request).result) == []
      && Lowered(asWritten)(ctx, request) == Reply(Some(EmptyCallToolResult), None)
    ensures var corrected := NewStructuredTaskToolHandler(builders, structuredOnly, bind, handler);
      && ValidateAnyToolResult(corrected(ctx, request).result) == None
      && |NewTaskToolAfterHookAdaptor(hooks)(ctx, id, request, corrected(ctx, request).result)| == 1
      && Lowered(corrected)(ctx, request) == NewStructuredToolHandler(builders, structuredOnly, bind, handler)(ctx, request)
  {
  }
}
