/** Dispatch of one action to the handler registered for its tag. */
module Execution {
  import opened Wrappers
  import opened Actions
  import opened Errors

  /** What handlers receive besides the action: the run's output directory, when known. */
  datatype ActionContext = ActionContext(workflowOutputDir: Option<string>)

  /** A handler object: one of the fifteen built-in handlers, or any other object a caller
      registers. */
  datatype Handler = Standard(tag: ActionType) | Custom(id: nat)

  /** The browser page handlers drive; only its identity matters here. */
  datatype Page = Page(id: nat)

  /** The outcome of `handler.execute(action, page, context)`: success, or a thrown value
      rendered as text. The browser is outside the model, so this is a parameter. */
  type Run = (Handler, Action, Page, ActionContext) -> Outcome<string>

  function NoHandlerMessage(tag: string): string
  {
    "No handler registered for action type: " + tag
  }

  function HandlerFailedMessage(tag: string, cause: string): string
  {
    "Failed to execute " + tag + " action: " + cause
  }

  /** What `executeAction` does with a given handler map and context. */
  function Dispatch(handlers: map<string, Handler>, context: ActionContext, action: Action, page: Page,
                    index: int, run: Run): Outcome<ExecutionError>
  {
    var tag := TagName(action.Tag());
    if tag !in handlers then Fail(ExecutionError(NoHandlerMessage(tag), index, action))
    else match run(handlers[tag], action, page, context)
      case Pass => Pass
      case Fail(cause) => Fail(ExecutionError(HandlerFailedMessage(tag, cause), index, action))
  }

  class ActionExecutor {
    var handlers: map<string, Handler>
    var context: ActionContext

    /** A fresh executor: no handlers and an empty context. */
    constructor()
      ensures handlers == map[] && context == ActionContext(None)
    {
      handlers := map[];
      context := ActionContext(None);
    }

    /** Replaces the whole context. */
    method SetContext(c: ActionContext)
      modifies this
      ensures context == c && handlers == old(handlers)
    {
      context := c;
    }

    /** Binds `actionType` to `handler`; a later binding for the same tag wins. */
    method RegisterHandler(actionType: string, handler: Handler)
      modifies this
      ensures handlers == old(handlers)[actionType := handler]
      ensures context == old(context)
    {
      handlers := handlers[actionType := handler];
    }

    /** Runs `action` with its tag's handler and the current context. Neither the handler map
        nor the context changes: the method modifies nothing. */
    method ExecuteAction(action: Action, page: Page, index: int, run: Run) returns (r: Outcome<ExecutionError>)
      ensures r == Dispatch(handlers, context, action, page, index, run)
      ensures r.Fail? ==> r.error.actionIndex == index && r.error.action == action
      ensures r.Fail? && r.error.message == NoHandlerMessage(TagName(action.Tag())) <==> TagName(action.Tag()) !in handlers
    {
      var tag := TagName(action.Tag());
      if tag !in handlers {
        return Fail(ExecutionError(NoHandlerMessage(tag), index, action));
      }
      var outcome := run(handlers[tag], action, page, context);
      if outcome.Fail? {
        DistinctMessages(tag, outcome.error);
        return Fail(ExecutionError(HandlerFailedMessage(tag, outcome.error), index, action));
      }
      return Pass;
    }
  }

  /** A wrapped handler failure can never be mistaken for a missing handler. */
  lemma DistinctMessages(tag: string, cause: string)
    ensures HandlerFailedMessage(tag, cause) != NoHandlerMessage(tag)
  {
    assert HandlerFailedMessage(tag, cause)[0] == 'F';
    assert NoHandlerMessage(tag)[0] == 'N';
  }

  /** A fresh executor fails every action with the missing-handler error for its index. */
  lemma FreshExecutorFails(action: Action, page: Page, index: int, run: Run)
    ensures Dispatch(map[], ActionContext(None), action, page, index, run)
         == Fail(ExecutionError(NoHandlerMessage(TagName(action.Tag())), index, action))
  {
  }

  /** A failing handler is never swallowed: the failure is rethrown with the same index and
      action and with the cause in the message. A succeeding handler makes the dispatch succeed. */
  lemma HandlerOutcomePropagates(handlers: map<string, Handler>, context: ActionContext, action: Action,
                                 page: Page, index: int, run: Run)
    requires TagName(action.Tag()) in handlers
    ensures var out := run(handlers[TagName(action.Tag())], action, page, context);
      && (out.Pass? <==> Dispatch(handlers, context, action, page, index, run).Pass?)
      && (out.Fail? ==>
            Dispatch(handlers, context, action, page, index, run)
              == Fail(ExecutionError(HandlerFailedMessage(TagName(action.Tag()), out.error), index, action)))
  {
  }

  /** Dispatch depends only on the binding for the action's own tag: rebinding another tag
      changes nothing. */
  lemma DispatchIgnoresOtherBindings(handlers: map<string, Handler>, other: string, h: Handler,
                                     context: ActionContext, action: Action, page: Page, index: int, run: Run)
    requires other != TagName(action.Tag())
    ensures Dispatch(handlers[other := h], context, action, page, index, run)
         == Dispatch(handlers, context, action, page, index, run)
  {
  }
}

/** The fifteen built-in bindings. */
module Registry {
  import opened Wrappers
  import opened Actions
  import opened Errors
  import opened Execution

  /** `handlers` after `registerActionHandlers`: each tag's spelling bound to its own
      handler, in the order of the registration calls; bindings for other keys are kept. */
  function WithStandard(handlers: map<string, Handler>): map<string, Handler>
  {
    handlers["goto" := Standard(Goto)]["click" := Standard(Click)]["fill" := Standard(Fill)]
      ["type" := Standard(TypeText)]["press" := Standard(Press)]["hover" := Standard(Hover)]
      ["screenshot" := Standard(Screenshot)]["waitForSelector" := Standard(WaitForSelector)]
      ["waitForTimeout" := Standard(WaitForTimeout)]["waitForManualAction" := Standard(WaitForManualAction)]
      ["selectOption" := Standard(SelectOption)]["check" := Standard(Check)]["uncheck" := Standard(Uncheck)]
      ["evaluate" := Standard(Evaluate)]["showMessage" := Standard(ShowMessage)]
  }

  /** Registers the fifteen handlers, one per tag; only the handler map changes. */
  method RegisterActionHandlers(executor: ActionExecutor)
    modifies executor
    ensures executor.handlers == WithStandard(old(executor.handlers))
    ensures executor.context == old(executor.context)
  {
    executor.RegisterHandler("goto", Standard(Goto));
    executor.RegisterHandler("click", Standard(Click));
    executor.RegisterHandler("fill", Standard(Fill));
    executor.RegisterHandler("type", Standard(TypeText));
    executor.RegisterHandler("press", Standard(Press));
    executor.RegisterHandler("hover", Standard(Hover));
    executor.RegisterHandler("screenshot", Standard(Screenshot));
    executor.RegisterHandler("waitForSelector", Standard(WaitForSelector));
    executor.RegisterHandler("waitForTimeout", Standard(WaitForTimeout));
    executor.RegisterHandler("waitForManualAction", Standard(WaitForManualAction));
    executor.RegisterHandler("selectOption", Standard(SelectOption));
    executor.RegisterHandler("check", Standard(Check));
    executor.RegisterHandler("uncheck", Standard(Uncheck));
    executor.RegisterHandler("evaluate", Standard(Evaluate));
    executor.RegisterHandler("showMessage", Standard(ShowMessage));
  }

  /** After registration every tag is bound, to its own handler, whatever was bound before. */
  lemma RegisteredTagBound(handlers: map<string, Handler>, t: ActionType)
    ensures TagName(t) in WithStandard(handlers)
    ensures WithStandard(handlers)[TagName(t)] == Standard(t)
  {
    if t in {Goto, Click, Fill, TypeText, Press, Hover, Screenshot} {
      EarlyTagBound(handlers, t);
    } else {
      LateTagBound(handlers, t);
    }
  }

  lemma EarlyTagBound(handlers: map<string, Handler>, t: ActionType)
    requires t in {Goto, Click, Fill, TypeText, Press, Hover, Screenshot}
    ensures TagName(t) in WithStandard(handlers)
    ensures WithStandard(handlers)[TagName(t)] == Standard(t)
  {
    match t
    case Goto =>
    case Click =>
    case Fill =>
    case TypeText =>
    case Press =>
    case Hover =>
    case Screenshot =>
  }

  lemma LateTagBound(handlers: map<string, Handler>, t: ActionType)
    requires t !in {Goto, Click, Fill, TypeText, Press, Hover, Screenshot}
    ensures TagName(t) in WithStandard(handlers)
    ensures WithStandard(handlers)[TagName(t)] == Standard(t)
  {
    match t
    case WaitForSelector =>
    case WaitForTimeout =>
    case WaitForManualAction =>
    case SelectOption =>
    case Check =>
    case Uncheck =>
    case Evaluate =>
    case ShowMessage =>
  }

  /** Registration touches only tag spellings: any other key keeps its old binding (or stays
      unbound). */
  lemma RegistrationKeepsOthers(handlers: map<string, Handler>, k: string)
    requires ParseTag(k).None?
    ensures k in WithStandard(handlers) <==> k in handlers
    ensures k in handlers ==> WithStandard(handlers)[k] == handlers[k]
  {
  }

  /** A key is bound after registration exactly when it was bound before or names a tag. */
  lemma RegisteredKeys(handlers: map<string, Handler>, k: string)
    ensures k in WithStandard(handlers) <==> k in handlers || ParseTag(k).Some?
  {
    if ParseTag(k).Some? {
      TagNameRoundTrip(ParseTag(k).value, k);
      RegisteredTagBound(handlers, ParseTag(k).value);
    }
  }

  /** After registration every action finds a handler, and it is the action's own one: the
      missing-handler error cannot occur. */
  lemma RegisteredDispatchFindsHandler(handlers: map<string, Handler>, context: ActionContext,
                                       action: Action, page: Page, index: int, run: Run)
    ensures var r := run(Standard(action.Tag()), action, page, context);
      Dispatch(WithStandard(handlers), context, action, page, index, run)
        == if r.Pass? then Pass
           else Fail(ExecutionError(HandlerFailedMessage(TagName(action.Tag()), r.error), index, action))
  {
    RegisteredTagBound(handlers, action.Tag());
    BoundDispatch(WithStandard(handlers), context, action, page, index, run);
  }

  lemma BoundDispatch(handlers: map<string, Handler>, context: ActionContext,
                      action: Action, page: Page, index: int, run: Run)
    requires TagName(action.Tag()) in handlers && handlers[TagName(action.Tag())] == Standard(action.Tag())
    ensures var r := run(Standard(action.Tag()), action, page, context);
      Dispatch(handlers, context, action, page, index, run)
        == if r.Pass? then Pass
           else Fail(ExecutionError(HandlerFailedMessage(TagName(action.Tag()), r.error), index, action))
  {
  }
}
