/** M210, the server handler: coordinates the MCP tools leaf (left, M211) and
    the MCP resources leaf (right, M212). */
module ServerHandler {
  import opened Values
  import opened Results

  const NodeId := "M210"

  /** Cost charged by this node itself on every request. */
  const BaseTokens := 15

  /** `input_data.get("action", "list_capabilities")`. */
  function Action(req: Request): Value {
    Get(req, "action", Str("list_capabilities"))
  }

  predicate Known(action: Value) {
    action in {Str("call_tool"), Str("get_resource"), Str("execute_with_prompt"), Str("list_capabilities"), Str("status")}
  }

  function ToolCall(tool: Value, params: Value): Request {
    map["action" := Str("call"), "tool" := tool, "params" := params]
  }

  /** The request that renders the prompt for `execute_with_prompt`. */
  function PromptRequest(req: Request): Request {
    map["action" := Str("render"), "uri" := Get(req, "resource", Str("")), "variables" := Get(req, "variables", Dict(map[]))]
  }

  /** `{**tool_params, "prompt_context": prompt.data.get("content", {})}`; None
      where Python raises, because the parameters are not a dictionary or the
      prompt's payload has no `get`. */
  function EnhancedParams(params: Value, prompt: Value): (r: Option<Value>)
    ensures r.Some? <==> params.Dict? && prompt.Dict?
    ensures r.Some? ==> r.value == Dict(params.fields["prompt_context" := Get(prompt.fields, "content", Dict(map[]))])
  {
    if params.Dict? && prompt.Dict? then
      Some(Dict(params.fields["prompt_context" := Get(prompt.fields, "content", Dict(map[]))]))
    else None
  }

  /** `ServerHandlerNode.process`. */
  function Process(req: Request, left: Child, right: Child): (o: Outcome)
    ensures o.result.nodeId == NodeId
  {
    var action := Action(req);
    if action == Str("call_tool") then
      var call := ToolCall(Get(req, "tool", Str("")), Get(req, "params", Dict(map[])));
      var result := left(call);
      Outcome(Forward(NodeId, result, BaseTokens + result.tokensUsed), [ToLeft(call)])
    else if action == Str("get_resource") then
      var variables := Get(req, "variables", Dict(map[]));
      var fetch := map["action" := Str(if Truthy(variables) then "render" else "fetch"),
                       "uri" := Get(req, "resource", Str("")),
                       "variables" := variables];
      var result := right(fetch);
      Outcome(Forward(NodeId, result, BaseTokens + result.tokensUsed), [ToRight(fetch)])
    else if action == Str("execute_with_prompt") then
      var prompt := right(PromptRequest(req));
      if !prompt.success then
        Outcome(Failure(NodeId, "Failed to get prompt: " + ShowError(prompt.error), BaseTokens + prompt.tokensUsed),
                [ToRight(PromptRequest(req))])
      else
        match EnhancedParams(Get(req, "params", Dict(map[])), prompt.data)
        case None =>
          Outcome(Fault(NodeId, BaseTokens), [ToRight(PromptRequest(req))])
        case Some(params) =>
          var call := ToolCall(Get(req, "tool", Str("")), params);
          var tool := left(call);
          Outcome(NodeResult(tool.success,
                             Dict(map["prompt" := prompt.data, "tool_result" := tool.data]),
                             tool.error, BaseTokens + prompt.tokensUsed + tool.tokensUsed, NodeId),
                  [ToRight(PromptRequest(req)), ToLeft(call)])
    else if action == Str("list_capabilities") then
      var list := map["action" := Str("list")];
      var tools, resources := left(list), right(list);
      Outcome(NodeResult(tools.success && resources.success,
                         Dict(map["tools" := if tools.success then tools.data else List([]),
                                  "resources" := if resources.success then resources.data else List([])]),
                         None, BaseTokens + tools.tokensUsed + resources.tokensUsed, NodeId),
              [ToLeft(list), ToRight(list)])
    else if action == Str("status") then
      var status := map["action" := Str("status")];
      var tools, resources := left(status), right(status);
      Outcome(NodeResult(true,
                         Dict(map["tools_status" := tools.data, "resources_status" := resources.data,
                                  "server_healthy" := Bool(tools.success && resources.success)]),
                         None, BaseTokens + tools.tokensUsed + resources.tokensUsed, NodeId),
              [ToLeft(status), ToRight(status)])
    else
      Outcome(Failure(NodeId, UnknownActionError(action), BaseTokens), [])
  }

  /** A request without an action is handled as `list_capabilities`. */
  lemma DefaultActionIsListCapabilities(req: Request, left: Child, right: Child)
    requires "action" !in req
    ensures Process(req, left, right) == Process(req["action" := Str("list_capabilities")], left, right)
  {
  }

  /** A request makes no child call exactly when its action is unknown, and then
      it fails with the "Unknown action" message at the base cost. */
  lemma UnknownActionRule(req: Request, left: Child, right: Child)
    ensures Process(req, left, right).calls == [] <==> !Known(Action(req))
    ensures !Known(Action(req)) ==>
      Process(req, left, right).result == Failure(NodeId, UnknownActionError(Action(req)), BaseTokens)
  {
  }

  /** `call_tool` forwards to the tools leaf with action "call" and copies its
      answer, at 15 + tool tokens. */
  lemma CallToolRule(req: Request, left: Child, right: Child)
    requires Action(req) == Str("call_tool")
    ensures var o := Process(req, left, right);
            && |o.calls| == 1 && o.calls[0].ToLeft? && o.calls[0].req["action"] == Str("call")
            && var r := left(o.calls[0].req);
               o.result == Forward(NodeId, r, BaseTokens + r.tokensUsed)
  {
  }

  /** `get_resource` asks the resources leaf to render exactly when variables are
      given (non-empty), and to fetch otherwise. */
  lemma GetResourceRule(req: Request, left: Child, right: Child)
    requires Action(req) == Str("get_resource")
    ensures var o := Process(req, left, right);
            && |o.calls| == 1 && o.calls[0].ToRight?
            && (o.calls[0].req["action"] == Str("render") <==> Truthy(Get(req, "variables", Dict(map[]))))
            && (o.calls[0].req["action"] == Str("fetch") <==> !Truthy(Get(req, "variables", Dict(map[]))))
            && var r := right(o.calls[0].req);
               o.result == Forward(NodeId, r, BaseTokens + r.tokensUsed)
  {
  }

  /** `execute_with_prompt` is fail-fast: a failed prompt ends the request
      before the tool is called, at 15 + prompt tokens. */
  lemma PromptFailureShortCircuits(req: Request, left: Child, right: Child)
    requires Action(req) == Str("execute_with_prompt")
    requires !right(PromptRequest(req)).success
    ensures var o := Process(req, left, right);
            && o.calls == [ToRight(PromptRequest(req))]
            && o.result == Failure(NodeId, "Failed to get prompt: " + ShowError(right(PromptRequest(req)).error),
                                   BaseTokens + right(PromptRequest(req)).tokensUsed)
  {
  }

  /** After a rendered prompt, the tool is called with the prompt's content added
      to the parameters, and the tool decides success; the cost is 15 + prompt + tool. */
  lemma PromptThenTool(req: Request, left: Child, right: Child)
    requires Action(req) == Str("execute_with_prompt")
    requires right(PromptRequest(req)).success
    requires EnhancedParams(Get(req, "params", Dict(map[])), right(PromptRequest(req)).data).Some?
    ensures var o := Process(req, left, right);
            var prompt := right(PromptRequest(req));
            && |o.calls| == 2 && o.calls[0] == ToRight(PromptRequest(req)) && o.calls[1].ToLeft?
            && o.calls[1].req["params"].Dict?
            && o.calls[1].req["params"].fields["prompt_context"] == Get(prompt.data.fields, "content", Dict(map[]))
            && var tool := left(o.calls[1].req);
               && o.result.success == tool.success && o.result.error == tool.error
               && o.result.tokensUsed == BaseTokens + prompt.tokensUsed + tool.tokensUsed
  {
  }

  /** When the tool parameters are not a dictionary or the prompt's payload is
      not one, building the tool's parameters raises: the request fails at the
      base cost and the tool is never called. */
  lemma MalformedPromptFaults(req: Request, left: Child, right: Child)
    requires Action(req) == Str("execute_with_prompt")
    requires right(PromptRequest(req)).success
    requires !Get(req, "params", Dict(map[])).Dict? || !right(PromptRequest(req)).data.Dict?
    ensures Process(req, left, right) == Outcome(Fault(NodeId, BaseTokens), [ToRight(PromptRequest(req))])
  {
  }

  /** `list_capabilities` succeeds exactly when both leaves do; `status` always
      succeeds and reports the server healthy exactly when both leaves answer successfully. */
  lemma BothChildrenRules(req: Request, left: Child, right: Child)
    requires Action(req) == Str("list_capabilities") || Action(req) == Str("status")
    ensures var o := Process(req, left, right);
            && |o.calls| == 2 && o.calls[0].ToLeft? && o.calls[1].ToRight?
            && var l, r := left(o.calls[0].req), right(o.calls[1].req);
               && o.result.tokensUsed == BaseTokens + l.tokensUsed + r.tokensUsed
               && (Action(req) == Str("list_capabilities") ==> (o.result.success <==> l.success && r.success))
               && (Action(req) == Str("status") ==>
                     o.result.success && o.result.data.fields["server_healthy"] == Bool(l.success && r.success))
  {
  }

  /** With children that never report negative costs, every answer costs at
      least the base cost. */
  lemma CostCoversBase(req: Request, left: Child, right: Child)
    requires NonNegativeTokens(left) && NonNegativeTokens(right)
    ensures Process(req, left, right).result.tokensUsed >= BaseTokens
  {
  }
}
