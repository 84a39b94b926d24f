/** M100, the infrastructure manager: coordinates the config handler (left,
    M110) and the database handler (right, M120), and remembers whether the
    infrastructure has been initialized. The children's `get_status()` reports,
    read by `system_status`, are taken as parameters. */
module InfrastructureManager {
  import opened Values
  import opened Results

  const NodeId := "M100"

  /** Cost charged by this node itself on every request. */
  const BaseTokens := 20

  const DefaultConfigPath: Value := Str("config/settings.yaml")

  /** `input_data.get("action", "system_status")`. */
  function Action(req: Request): Value {
    Get(req, "action", Str("system_status"))
  }

  predicate Known(action: Value) {
    action in {Str("initialize"), Str("get_tenant_data"), Str("save_tenant"), Str("config_update"),
               Str("system_status"), Str("sync_data")}
  }

  /** A log line written through the config handler. */
  function LogRequest(level: string, message: string): Request {
    map["action" := Str("log"), "log_level" := Str(level), "message" := Str(message)]
  }

  /** The line the exception handler writes before answering with the fault. */
  const ErrorLog: Request := LogRequest("ERROR", "Infrastructure error: " + FaultText)

  /** What one request produces: the answer, its calls, and the new value of
      the initialized flag. */
  datatype Step = Step(outcome: Outcome, initialized: bool)

  // ---------------------------------------------------------------------------
  // initialize

  function InitRequest(req: Request): Request {
    map["action" := Str("init_system"), "config_path" := Get(req, "config_path", DefaultConfigPath)]
  }

  const DbCheck: Request := map["action" := Str("get_tenants"), "source" := Str("database")]

  function InitLog(dbConnected: bool): Request {
    LogRequest("INFO", "Infrastructure initialized. DB status: " + (if dbConnected then "True" else "False"))
  }

  function Initialize(req: Request, left: Child, right: Child, initialized: bool): (s: Step)
    ensures s.outcome.result.nodeId == NodeId
  {
    var config := left(InitRequest(req));
    if !config.success then
      Step(Outcome(Failure(NodeId, "Configuration initialization failed: " + ShowError(config.error),
                           BaseTokens + config.tokensUsed),
                   [ToLeft(InitRequest(req))]),
           initialized)
    else
      var db := right(DbCheck);
      var tokens := BaseTokens + config.tokensUsed + db.tokensUsed;
      var calls := [ToLeft(InitRequest(req)), ToRight(DbCheck), ToLeft(InitLog(db.success))];
      var count := if db.success then Len(db.data) else Some(0);
      if count.None? then
        // `len(db_result.data)` raises after the flag was set
        Step(Outcome(Fault(NodeId, tokens), calls + [ToLeft(ErrorLog)]), db.success)
      else
        Step(Outcome(NodeResult(db.success,
                                Dict(map["config" := config.data, "database_connected" := Bool(db.success),
                                         "tenant_count" := Int(count.value)]),
                                None, tokens, NodeId),
                     calls),
             db.success)
  }

  // ---------------------------------------------------------------------------
  // the other actions

  function TenantQuery(req: Request): Request {
    var id := Get(req, "tenant_id", Null);
    if Truthy(id) then
      map["action" := Str("query"), "sql" := Str("SELECT * FROM tenants WHERE id = :id"), "params" := Dict(map["id" := id])]
    else
      map["action" := Str("get_tenants"), "source" := Get(req, "source", Str("database"))]
  }

  const LoadConfig: Request := map["action" := Str("load_config")]

  function GetTenantData(req: Request, left: Child, right: Child): (o: Outcome)
    ensures o.result.nodeId == NodeId
  {
    var db := right(TenantQuery(req));
    var tenants := if db.success then db.data else List([]);
    if Truthy(Get(req, "include_config", Bool(false))) then
      var config := left(LoadConfig);
      Outcome(NodeResult(db.success,
                         Dict(map["tenants" := tenants, "config" := if config.success then config.data else Dict(map[])]),
                         None, BaseTokens + db.tokensUsed + config.tokensUsed, NodeId),
              [ToRight(TenantQuery(req)), ToLeft(LoadConfig)])
    else
      Outcome(NodeResult(db.success, Dict(map["tenants" := tenants]), None, BaseTokens + db.tokensUsed, NodeId),
              [ToRight(TenantQuery(req))])
  }

  function SaveRequest(req: Request): Request {
    map["action" := Str("add_tenant"), "data" := Get(req, "data", Dict(map[])),
        "sync_excel" := Get(req, "sync_excel", Bool(true))]
  }

  function SaveLog(saved: bool, tenant: map<string, Value>): Request {
    LogRequest(if saved then "INFO" else "ERROR",
               "Tenant save " + (if saved then "succeeded" else "failed") + ": " + Show(Get(tenant, "name", Str("Unknown"))))
  }

  function SaveTenant(req: Request, left: Child, right: Child): (o: Outcome)
    ensures o.result.nodeId == NodeId
  {
    var tenant := Get(req, "data", Dict(map[]));
    var db := right(SaveRequest(req));
    if !tenant.Dict? then
      // `tenant_data.get('name', ...)` raises before the log line is written
      Outcome(Fault(NodeId, BaseTokens), [ToRight(SaveRequest(req)), ToLeft(ErrorLog)])
    else
      Outcome(Forward(NodeId, db, BaseTokens + db.tokensUsed + 10),
              [ToRight(SaveRequest(req)), ToLeft(SaveLog(db.success, tenant.fields))])
  }

  function SaveConfig(req: Request): Request {
    map["action" := Str("save_config"), "config_path" := Get(req, "config_path", DefaultConfigPath),
        "data" := Get(req, "data", Dict(map[]))]
  }

  const SyncRequest: Request := map["action" := Str("sync")]

  function SyncLog(report: Value): Request {
    LogRequest("INFO", "Data sync completed: " + Show(report))
  }

  /** `InfrastructureManagerNode.process` given the current value of the
      initialized flag and the children's status reports. */
  function Handle(req: Request, left: Child, right: Child, initialized: bool,
                  configStatus: Value, dbStatus: Value): (s: Step)
    ensures s.outcome.result.nodeId == NodeId
  {
    var action := Action(req);
    if action == Str("initialize") then
      Initialize(req, left, right, initialized)
    else if action == Str("get_tenant_data") then
      Step(GetTenantData(req, left, right), initialized)
    else if action == Str("save_tenant") then
      Step(SaveTenant(req, left, right), initialized)
    else if action == Str("config_update") then
      var config := left(SaveConfig(req));
      Step(Outcome(Forward(NodeId, config, BaseTokens + config.tokensUsed), [ToLeft(SaveConfig(req))]), initialized)
    else if action == Str("system_status") then
      Step(Outcome(NodeResult(true,
                              Dict(map["initialized" := Bool(initialized), "config_handler" := configStatus,
                                       "database_handler" := dbStatus]),
                              None, BaseTokens, NodeId),
                   []),
           initialized)
    else if action == Str("sync_data") then
      var sync := right(SyncRequest);
      Step(Outcome(NodeResult(sync.success, sync.data, None, BaseTokens + sync.tokensUsed + 5, NodeId),
                   [ToRight(SyncRequest), ToLeft(SyncLog(sync.data))]),
           initialized)
    else
      Step(Outcome(Failure(NodeId, UnknownActionError(action), BaseTokens), []), initialized)
  }

  /** The node itself: its only state of its own is the initialized flag. */
  class InfrastructureManager {
    var systemInitialized: bool

    constructor()
      ensures !systemInitialized
    {
      systemInitialized := false;
    }

    /** `process`: answers one request and updates the flag as `Handle` says. */
    method Process(req: Request, left: Child, right: Child, configStatus: Value, dbStatus: Value)
      returns (o: Outcome)
      modifies this
      ensures Step(o, systemInitialized) == Handle(req, left, right, old(systemInitialized), configStatus, dbStatus)
    {
      if Action(req) != Str("initialize") {
        OnlyInitializeChangesFlag(req, left, right, systemInitialized, configStatus, dbStatus);
        o := Handle(req, left, right, systemInitialized, configStatus, dbStatus).outcome;
        return;
      }
      assert Handle(req, left, right, systemInitialized, configStatus, dbStatus) ==
             Initialize(req, left, right, systemInitialized);
      var config := left(InitRequest(req));
      if !config.success {
        o := Outcome(Failure(NodeId, "Configuration initialization failed: " + ShowError(config.error),
                             BaseTokens + config.tokensUsed),
                     [ToLeft(InitRequest(req))]);
        return;
      }
      var db := right(DbCheck);
      var tokens := BaseTokens + config.tokensUsed + db.tokensUsed;
      var calls := [ToLeft(InitRequest(req)), ToRight(DbCheck), ToLeft(InitLog(db.success))];
      systemInitialized := db.success;
      var count := if db.success then Len(db.data) else Some(0);
      if count.None? {
        o := Outcome(Fault(NodeId, tokens), calls + [ToLeft(ErrorLog)]);
      } else {
        o := Outcome(NodeResult(db.success,
                                Dict(map["config" := config.data, "database_connected" := Bool(db.success),
                                         "tenant_count" := Int(count.value)]),
                                None, tokens, NodeId),
                     calls);
      }
    }
  }

  // ---------------------------------------------------------------------------
  // properties

  /** Only `initialize` can change the flag. */
  lemma OnlyInitializeChangesFlag(req: Request, left: Child, right: Child, initialized: bool,
                                  configStatus: Value, dbStatus: Value)
    requires Action(req) != Str("initialize")
    ensures Handle(req, left, right, initialized, configStatus, dbStatus).initialized == initialized
  {
  }

  /** `initialize` fails fast when the configuration cannot be initialized,
      leaving the flag alone; otherwise the flag becomes whether the database
      answered, the database check is charged with the config, and the outcome
      is logged. */
  lemma InitializeRule(req: Request, left: Child, right: Child, initialized: bool,
                       configStatus: Value, dbStatus: Value)
    requires Action(req) == Str("initialize")
    ensures var s := Handle(req, left, right, initialized, configStatus, dbStatus);
            var config := left(InitRequest(req));
            var db := right(DbCheck);
            && s.outcome.calls[0] == ToLeft(InitRequest(req))
            && (!config.success ==>
                  && s.initialized == initialized && !s.outcome.result.success
                  && s.outcome.calls == [ToLeft(InitRequest(req))]
                  && s.outcome.result.tokensUsed == BaseTokens + config.tokensUsed)
            && (config.success ==>
                  && s.initialized == db.success
                  && s.outcome.calls[..3] == [ToLeft(InitRequest(req)), ToRight(DbCheck), ToLeft(InitLog(db.success))]
                  && s.outcome.result.success == (db.success && Len(db.data).Some?)
                  && s.outcome.result.tokensUsed == BaseTokens + config.tokensUsed + db.tokensUsed)
  {
  }

  /** `system_status` makes no call, costs only the base, and reports the flag. */
  lemma StatusReportsFlag(req: Request, left: Child, right: Child, initialized: bool,
                          configStatus: Value, dbStatus: Value)
    requires Action(req) == Str("system_status")
    ensures var s := Handle(req, left, right, initialized, configStatus, dbStatus);
            && s.outcome.calls == [] && s.outcome.result.success
            && s.outcome.result.tokensUsed == BaseTokens
            && s.outcome.result.data.fields["initialized"] == Bool(initialized)
  {
  }

  /** After an `initialize` whose configuration step succeeded, the next status
      query reports the infrastructure initialized exactly when the database answered. */
  lemma InitializeThenStatus(init: Request, status: Request, left: Child, right: Child, initialized: bool,
                             configStatus: Value, dbStatus: Value)
    requires Action(init) == Str("initialize") && Action(status) == Str("system_status")
    requires left(InitRequest(init)).success
    ensures var s := Handle(init, left, right, initialized, configStatus, dbStatus);
            Handle(status, left, right, s.initialized, configStatus, dbStatus).outcome.result.data.fields["initialized"]
              == Bool(right(DbCheck).success)
  {
    InitializeRule(init, left, right, initialized, configStatus, dbStatus);
    var s := Handle(init, left, right, initialized, configStatus, dbStatus);
    StatusReportsFlag(status, left, right, s.initialized, configStatus, dbStatus);
  }

  /** A request makes no child call exactly when its action is unknown or is
      `system_status`. */
  lemma UnknownActionRule(req: Request, left: Child, right: Child, initialized: bool,
                          configStatus: Value, dbStatus: Value)
    ensures Handle(req, left, right, initialized, configStatus, dbStatus).outcome.calls == [] <==>
              !Known(Action(req)) || Action(req) == Str("system_status")
    ensures !Known(Action(req)) ==>
      Handle(req, left, right, initialized, configStatus, dbStatus).outcome.result ==
        Failure(NodeId, UnknownActionError(Action(req)), BaseTokens)
  {
    if Action(req) == Str("initialize") {
      assert |Initialize(req, left, right, initialized).outcome.calls| >= 1;
    } else if Action(req) == Str("get_tenant_data") {
      assert |GetTenantData(req, left, right).calls| >= 1;
    } else if Action(req) == Str("save_tenant") {
      assert |SaveTenant(req, left, right).calls| >= 1;
    }
  }

  /** A request without an action is a status query. */
  lemma DefaultActionIsSystemStatus(req: Request, left: Child, right: Child, initialized: bool,
                                    configStatus: Value, dbStatus: Value)
    requires "action" !in req
    ensures Handle(req, left, right, initialized, configStatus, dbStatus).outcome.calls == []
    ensures Handle(req, left, right, initialized, configStatus, dbStatus).outcome.result.success
  {
  }

  /** `get_tenant_data` queries one tenant when an id is given and lists the
      tenants of a source otherwise; the configuration is loaded exactly when
      asked for; the database decides success, and a failed read yields an
      empty tenant list. */
  lemma GetTenantDataRule(req: Request, left: Child, right: Child, initialized: bool,
                          configStatus: Value, dbStatus: Value)
    requires Action(req) == Str("get_tenant_data")
    ensures var o := Handle(req, left, right, initialized, configStatus, dbStatus).outcome;
            var db := right(TenantQuery(req));
            && o.calls[0] == ToRight(TenantQuery(req))
            && (TenantQuery(req)["action"] == Str("query") <==> Truthy(Get(req, "tenant_id", Null)))
            && (|o.calls| == 2 <==> Truthy(Get(req, "include_config", Bool(false))))
            && |o.calls| <= 2
            && o.result.success == db.success
            && o.result.data.fields["tenants"] == (if db.success then db.data else List([]))
            && o.result.tokensUsed == BaseTokens + db.tokensUsed + (if |o.calls| == 2 then left(LoadConfig).tokensUsed else 0)
  {
  }

  /** `save_tenant` passes the tenant and the Excel flag (true by default) to the
      database, logs the outcome at INFO or ERROR, and charges 20 + db + 10; a
      tenant that is not a dictionary faults at the base cost. */
  lemma SaveTenantRule(req: Request, left: Child, right: Child, initialized: bool,
                       configStatus: Value, dbStatus: Value)
    requires Action(req) == Str("save_tenant")
    ensures var o := Handle(req, left, right, initialized, configStatus, dbStatus).outcome;
            var db := right(SaveRequest(req));
            var tenant := Get(req, "data", Dict(map[]));
            && |o.calls| == 2 && o.calls[0] == ToRight(SaveRequest(req)) && o.calls[1].ToLeft?
            && (tenant.Dict? ==>
                  && o.calls[1].req["log_level"] == Str(if db.success then "INFO" else "ERROR")
                  && o.result == Forward(NodeId, db, BaseTokens + db.tokensUsed + 10))
            && (!tenant.Dict? ==> o.calls[1] == ToLeft(ErrorLog) && o.result == Fault(NodeId, BaseTokens))
  {
  }

  /** `config_update` saves through the config handler and copies its answer at
      20 + config; `sync_data` syncs through the database handler, logs the
      report, and charges 20 + sync + 5. */
  lemma ConfigUpdateAndSyncRule(req: Request, left: Child, right: Child, initialized: bool,
                                configStatus: Value, dbStatus: Value)
    requires Action(req) == Str("config_update") || Action(req) == Str("sync_data")
    ensures var o := Handle(req, left, right, initialized, configStatus, dbStatus).outcome;
            && (Action(req) == Str("config_update") ==>
                  && o.calls == [ToLeft(SaveConfig(req))]
                  && o.result == Forward(NodeId, left(SaveConfig(req)), BaseTokens + left(SaveConfig(req)).tokensUsed))
            && (Action(req) == Str("sync_data") ==>
                  && o.calls == [ToRight(SyncRequest), ToLeft(SyncLog(right(SyncRequest).data))]
                  && o.result.success == right(SyncRequest).success
                  && o.result.data == right(SyncRequest).data
                  && o.result.tokensUsed == BaseTokens + right(SyncRequest).tokensUsed + 5)
  {
  }

  /** With children that never report negative costs, every answer costs at
      least the base cost. */
  lemma CostCoversBase(req: Request, left: Child, right: Child, initialized: bool,
                       configStatus: Value, dbStatus: Value)
    requires NonNegativeTokens(left) && NonNegativeTokens(right)
    ensures Handle(req, left, right, initialized, configStatus, dbStatus).outcome.result.tokensUsed >= BaseTokens
  {
    var action := Action(req);
    if action == Str("initialize") {
      InitializeRule(req, left, right, initialized, configStatus, dbStatus);
    } else if action == Str("get_tenant_data") {
      GetTenantDataRule(req, left, right, initialized, configStatus, dbStatus);
    } else if action == Str("save_tenant") {
      SaveTenantRule(req, left, right, initialized, configStatus, dbStatus);
    } else if action == Str("config_update") || action == Str("sync_data") {
      ConfigUpdateAndSyncRule(req, left, right, initialized, configStatus, dbStatus);
    } else if action == Str("system_status") {
      StatusReportsFlag(req, left, right, initialized, configStatus, dbStatus);
    } else {
      UnknownActionRule(req, left, right, initialized, configStatus, dbStatus);
    }
  }
}
