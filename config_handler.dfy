/** M110, the config handler: coordinates the YAML config leaf (left, M111)
    and the log writer leaf (right, M112). Every branch is straight-line
    forwarding with fixed token arithmetic; the answers of the log writer
    are never looked at. */
module ConfigHandler {
  import opened Values
  import opened Results

  const NodeId := "M110"

  /** Cost charged by this node itself on every request. */
  const BaseTokens := 5

  const DefaultConfigPath: Value := Str("config/settings.yaml")

  /** `input_data.get("action", "load_config")`. */
  function Action(req: Request): Value {
    Get(req, "action", Str("load_config"))
  }

  predicate Known(action: Value) {
    action in {Str("load_config"), Str("save_config"), Str("log"), Str("init_system")}
  }

  /** A fixed-level log line written on this node's behalf. */
  function LogLine(level: string, message: string): Request {
    map["action" := Str("log"), "level" := Str(level), "message" := Str(message), "node_id" := Str(NodeId)]
  }

  function ReadRequest(path: Value): Request {
    map["action" := Str("read"), "path" := path]
  }

  /** `ConfigHandlerNode.process`. No statement inside its `try` can raise once
      the request is a dictionary and the children answer, so the handler that
      logs an exception is unreachable here. */
  function Process(req: Request, left: Child, right: Child): (o: Outcome)
    ensures o.result.nodeId == NodeId
  {
    var action := Action(req);
    if action == Str("load_config") then
      var path := Get(req, "config_path", DefaultConfigPath);
      var config := left(ReadRequest(path));
      Outcome(Forward(NodeId, config, BaseTokens + config.tokensUsed + 5),
              [ToLeft(ReadRequest(path)), ToRight(LogLine("INFO", "Configuration loaded from " + Show(path)))])
    else if action == Str("save_config") then
      var path := Get(req, "config_path", DefaultConfigPath);
      var write := map["action" := Str("write"), "path" := path, "data" := Get(req, "data", Dict(map[]))];
      var config := left(write);
      Outcome(NodeResult(config.success, config.data, None, BaseTokens + config.tokensUsed + 5, NodeId),
              [ToLeft(write), ToRight(LogLine("INFO", "Configuration saved to " + Show(path)))])
    else if action == Str("log") then
      var entry := map["action" := Str("log"),
                       "level" := Get(req, "log_level", Str("INFO")),
                       "message" := Get(req, "message", Str("")),
                       "node_id" := Get(req, "source_node", Str(NodeId))];
      var log := right(entry);
      Outcome(NodeResult(log.success, log.data, None, BaseTokens + log.tokensUsed, NodeId), [ToRight(entry)])
    else if action == Str("init_system") then
      var read := ReadRequest(Get(req, "config_path", DefaultConfigPath));
      var config := left(read);
      var verdict := if config.success then LogLine("INFO", "System initialized successfully")
                     else LogLine("ERROR", "System initialization failed: " + ShowError(config.error));
      Outcome(NodeResult(config.success,
                         Dict(map["config" := config.data, "initialized" := Bool(config.success)]),
                         None, BaseTokens + config.tokensUsed + 15, NodeId),
              [ToLeft(read), ToRight(LogLine("INFO", "System initialization started")), ToRight(verdict)])
    else
      Outcome(Failure(NodeId, UnknownActionError(action), BaseTokens), [])
  }

  /** A request without an action is handled as `load_config`. */
  lemma DefaultActionIsLoadConfig(req: Request, left: Child, right: Child)
    requires "action" !in req
    ensures Process(req, left, right) == Process(req["action" := Str("load_config")], left, right)
  {
    var req2 := req["action" := Str("load_config")];
    assert Get(req2, "config_path", DefaultConfigPath) == Get(req, "config_path", DefaultConfigPath);
  }

  /** A request makes no child call exactly when its action is unknown, and then
      it fails with the "Unknown action" message at the base cost. */
  lemma UnknownActionRule(req: Request, left: Child, right: Child)
    ensures Process(req, left, right).calls == [] <==> !Known(Action(req))
    ensures !Known(Action(req)) ==>
      Process(req, left, right).result == Failure(NodeId, UnknownActionError(Action(req)), BaseTokens)
  {
  }

  /** `load_config` reads through the left child, copies its success, data and
      error, logs on the right, and charges 5 + config + 5. */
  lemma LoadConfigRule(req: Request, left: Child, right: Child)
    requires Action(req) == Str("load_config")
    ensures var path := Get(req, "config_path", DefaultConfigPath);
            var config := left(ReadRequest(path));
            var o := Process(req, left, right);
            && o.result.success == config.success && o.result.data == config.data
            && o.result.error == config.error
            && o.result.tokensUsed == BaseTokens + config.tokensUsed + 5
            && |o.calls| == 2 && o.calls[0] == ToLeft(ReadRequest(path)) && o.calls[1].ToRight?
  {
  }

  /** `save_config` succeeds as the write does and charges 5 + config + 5; the
      write's error is not passed on. */
  lemma SaveConfigRule(req: Request, left: Child, right: Child)
    requires Action(req) == Str("save_config")
    ensures var o := Process(req, left, right);
            && |o.calls| == 2 && o.calls[0].ToLeft? && o.calls[1].ToRight?
            && o.result.success == left(o.calls[0].req).success
            && o.result.error == None
            && o.result.tokensUsed == BaseTokens + left(o.calls[0].req).tokensUsed + 5
  {
  }

  /** `log` forwards one entry to the log writer with the caller's level
      (INFO by default) and source node (this node by default), and charges 5 + log. */
  lemma LogRule(req: Request, left: Child, right: Child)
    requires Action(req) == Str("log")
    ensures var o := Process(req, left, right);
            && |o.calls| == 1 && o.calls[0].ToRight?
            && o.calls[0].req["level"] == Get(req, "log_level", Str("INFO"))
            && o.calls[0].req["node_id"] == Get(req, "source_node", Str(NodeId))
            && o.result.success == right(o.calls[0].req).success
            && o.result.tokensUsed == BaseTokens + right(o.calls[0].req).tokensUsed
  {
  }

  /** `init_system` always writes the start line and then exactly one of the
      success or error lines; it succeeds as the read does and charges 5 + config + 15. */
  lemma InitSystemRule(req: Request, left: Child, right: Child)
    requires Action(req) == Str("init_system")
    ensures var o := Process(req, left, right);
            var config := left(o.calls[0].req);
            && |o.calls| == 3 && o.calls[0].ToLeft?
            && o.calls[1] == ToRight(LogLine("INFO", "System initialization started"))
            && (o.calls[2] == ToRight(LogLine("INFO", "System initialized successfully")) <==> config.success)
            && o.calls[2].req["level"] == Str(if config.success then "INFO" else "ERROR")
            && o.result.success == config.success
            && o.result.tokensUsed == BaseTokens + config.tokensUsed + 15
  {
    var o := Process(req, left, right);
    var config := left(o.calls[0].req);
    if !config.success {
      assert o.calls[2].req["level"] != LogLine("INFO", "System initialized successfully")["level"];
    }
  }

  /** The log writer's answers never change the result: only the calls made to it. */
  lemma ResultIgnoresLogWriter(req: Request, left: Child, right1: Child, right2: Child)
    requires Action(req) != Str("log")
    ensures Process(req, left, right1) == Process(req, left, right2)
  {
  }

  /** With children that never report negative costs, every answer costs at
      least the base cost, and every known action other than `log` at least 5 more. */
  lemma CostCoversBase(req: Request, left: Child, right: Child)
    requires NonNegativeTokens(left) && NonNegativeTokens(right)
    ensures Process(req, left, right).result.tokensUsed >= BaseTokens
    ensures Known(Action(req)) && Action(req) != Str("log") ==>
      Process(req, left, right).result.tokensUsed >= BaseTokens + 5
  {
    var o := Process(req, left, right);
    if Known(Action(req)) {
      assert o.result.tokensUsed >= BaseTokens + (if Action(req) == Str("log") then right(o.calls[0].req) else left(o.calls[0].req)).tokensUsed;
    }
  }
}
