/** M000, the root orchestrator: builds the 15-node tree, owns the token
    balancer and the workflow history, and coordinates the infrastructure
    manager (left, M100) and the application manager (right, M200). */
module RootOrchestrator {
  import opened Values
  import opened Results
  import opened Nodes
  import opened Trees
  import opened Balancing
  import opened Weights

  const NodeId := "M000"

  /** Cost charged by this node itself on every request. */
  const BaseTokens := 30

  /** Cost the tenant report and the full pipeline workflows start from. */
  const ReportBaseTokens := 50
  const PipelineBaseTokens := 100

  // ---------------------------------------------------------------------------
  // the tree the root builds

  /** The configurations `_init_children` creates, position by position. */
  function RootConfig(totalBudget: int): NodeConfig {
    NodeConfig("M000", "Root Orchestrator", Root, Orchestrator, None, Some("M100"), Some("M200"), totalBudget)
  }
  const InfrastructureConfig := NodeConfig("M100", "Infrastructure Manager", Level1, Manager, Some("M000"), Some("M110"), Some("M120"), 35000)
  const ApplicationConfig := NodeConfig("M200", "Application Manager", Level1, Manager, Some("M000"), Some("M210"), Some("M220"), 55000)
  const ConfigHandlerConfig := NodeConfig("M110", "Config Handler", Level2, Handler, Some("M100"), Some("M111"), Some("M112"), 10000)
  const DatabaseHandlerConfig := NodeConfig("M120", "Database Handler", Level2, Handler, Some("M100"), Some("M121"), Some("M122"), 20000)
  const ServerHandlerConfig := NodeConfig("M210", "Server Handler", Level2, Handler, Some("M200"), Some("M211"), Some("M212"), 25000)
  const OutputHandlerConfig := NodeConfig("M220", "Output Handler", Level2, Handler, Some("M200"), Some("M221"), Some("M222"), 25000)
  const YamlConfig := NodeConfig("M111", "YAML Config Handler", LeafLevel, Interface, Some("M110"), None, None, 5000)
  const LogWriterConfig := NodeConfig("M112", "Log Writer Handler", LeafLevel, Interface, Some("M110"), None, None, 3000)
  const ExcelConfig := NodeConfig("M121", "Excel Handler", LeafLevel, Interface, Some("M120"), None, None, 8000)
  const SqlConfig := NodeConfig("M122", "SQL Database Handler", LeafLevel, Interface, Some("M120"), None, None, 10000)
  const ToolsConfig := NodeConfig("M211", "MCP Tools Handler", LeafLevel, Interface, Some("M210"), None, None, 15000)
  const ResourcesConfig := NodeConfig("M212", "MCP Resources Handler", LeafLevel, Interface, Some("M210"), None, None, 8000)
  const WebConfig := NodeConfig("M221", "Web Interface Handler", LeafLevel, Interface, Some("M220"), None, None, 12000)
  const PdfConfig := NodeConfig("M222", "PDF Generator Handler", LeafLevel, Interface, Some("M220"), None, None, 10000)

  /** The seven nodes of a manager's subtree carry the given configurations. */
  predicate ConfigsAre(t: Tree, m: NodeConfig, a: NodeConfig, a1: NodeConfig, a2: NodeConfig,
                       b: NodeConfig, b1: NodeConfig, b2: NodeConfig) {
    && t.Node? && t.left.Node? && t.right.Node?
    && t.node.config == m
    && t.left.node.config == a && t.left.left.node.config == a1 && t.left.right.node.config == a2
    && t.right.node.config == b && t.right.left.node.config == b1 && t.right.right.node.config == b2
  }

  /** Every node of the built tree carries the configuration of its position. */
  predicate ConfiguredAsBuilt(t: Tree, totalBudget: int) {
    && t.Node?
    && t.node.config == RootConfig(totalBudget)
    && ConfigsAre(t.left, InfrastructureConfig, ConfigHandlerConfig, YamlConfig, LogWriterConfig,
                  DatabaseHandlerConfig, ExcelConfig, SqlConfig)
    && ConfigsAre(t.right, ApplicationConfig, ServerHandlerConfig, ToolsConfig, ResourcesConfig,
                  OutputHandlerConfig, WebConfig, PdfConfig)
  }

  /** `LeafNode(config)`. */
  method NewLeaf(config: NodeConfig) returns (t: Tree)
    requires config.level == LeafLevel
    ensures t.Leaf? && fresh(t.node) && t.node.config == config
    ensures Wf(t) && AllIds(t) == {config.nodeId} && LeafObjects(t) == {t.node}
  {
    var c := NewLeafNode(config);
    t := Leaf(c.node);
  }

  /** `InternalNode(config)` over two built subtrees. */
  method NewBranch(config: NodeConfig, l: Tree, r: Tree) returns (t: Tree)
    requires config.level != LeafLevel
    requires Wf(l) && Wf(r) && AllIds(l) !! AllIds(r) && config.nodeId !in AllIds(l) + AllIds(r)
    ensures t.Node? && fresh(t.node) && t.node.config == config && t.left == l && t.right == r
    ensures Wf(t) && AllIds(t) == {config.nodeId} + AllIds(l) + AllIds(r)
    ensures LeafObjects(t) == LeafObjects(l) + LeafObjects(r)
  {
    var c := NewInternalNode(config);
    t := Node(c.node, l, r);
  }

  /** A manager over two handlers over two leaves each. */
  method BuildManager(m: NodeConfig, a: NodeConfig, a1: NodeConfig, a2: NodeConfig,
                      b: NodeConfig, b1: NodeConfig, b2: NodeConfig) returns (t: Tree)
    requires m.level != LeafLevel && a.level != LeafLevel && b.level != LeafLevel
    requires a1.level == LeafLevel && a2.level == LeafLevel && b1.level == LeafLevel && b2.level == LeafLevel
    requires a1.nodeId != a2.nodeId && a.nodeId !in {a1.nodeId, a2.nodeId}
    requires b1.nodeId != b2.nodeId && b.nodeId !in {b1.nodeId, b2.nodeId}
    requires {a.nodeId, a1.nodeId, a2.nodeId} !! {b.nodeId, b1.nodeId, b2.nodeId}
    requires m.nodeId !in {a.nodeId, a1.nodeId, a2.nodeId, b.nodeId, b1.nodeId, b2.nodeId}
    ensures Quad(t, m.nodeId, a.nodeId, a1.nodeId, a2.nodeId, b.nodeId, b1.nodeId, b2.nodeId)
    ensures ConfigsAre(t, m, a, a1, a2, b, b1, b2)
    ensures Wf(t) && AllIds(t) == {m.nodeId, a.nodeId, a1.nodeId, a2.nodeId, b.nodeId, b1.nodeId, b2.nodeId}
    ensures forall n :: n in LeafObjects(t) ==> fresh(n)
  {
    var x1 := NewLeaf(a1);
    var x2 := NewLeaf(a2);
    var x := NewBranch(a, x1, x2);
    var y1 := NewLeaf(b1);
    var y2 := NewLeaf(b2);
    var y := NewBranch(b, y1, y2);
    t := NewBranch(m, x, y);
  }

  /** The infrastructure manager's subtree. */
  method BuildInfrastructure() returns (t: Tree)
    ensures Quad(t, "M100", "M110", "M111", "M112", "M120", "M121", "M122")
    ensures ConfigsAre(t, InfrastructureConfig, ConfigHandlerConfig, YamlConfig, LogWriterConfig,
                       DatabaseHandlerConfig, ExcelConfig, SqlConfig)
    ensures Wf(t) && AllIds(t) == {"M100", "M110", "M111", "M112", "M120", "M121", "M122"}
    ensures forall n :: n in LeafObjects(t) ==> fresh(n)
  {
    t := BuildManager(InfrastructureConfig, ConfigHandlerConfig, YamlConfig, LogWriterConfig,
                      DatabaseHandlerConfig, ExcelConfig, SqlConfig);
  }

  /** The application manager's subtree. */
  method BuildApplication() returns (t: Tree)
    ensures Quad(t, "M200", "M210", "M211", "M212", "M220", "M221", "M222")
    ensures ConfigsAre(t, ApplicationConfig, ServerHandlerConfig, ToolsConfig, ResourcesConfig,
                       OutputHandlerConfig, WebConfig, PdfConfig)
    ensures Wf(t) && AllIds(t) == {"M200", "M210", "M211", "M212", "M220", "M221", "M222"}
    ensures forall n :: n in LeafObjects(t) ==> fresh(n)
  {
    t := BuildManager(ApplicationConfig, ServerHandlerConfig, ToolsConfig, ResourcesConfig,
                      OutputHandlerConfig, WebConfig, PdfConfig);
  }

  /** The two managers' subtrees share no id, and neither holds the root's. */
  lemma ManagerIdsDisjoint()
    ensures {"M100", "M110", "M111", "M112", "M120", "M121", "M122"} !! {"M200", "M210", "M211", "M212", "M220", "M221", "M222"}
    ensures "M000" !in {"M100", "M110", "M111", "M112", "M120", "M121", "M122"} + {"M200", "M210", "M211", "M212", "M220", "M221", "M222"}
  {}

  /** `_init_children` of every node, from the root down: the fixed 15-node tree. */
  method BuildTree(totalBudget: int) returns (t: Tree)
    ensures HasBuiltLayout(t) && Wf(t)
    ensures ConfiguredAsBuilt(t, totalBudget)
    ensures forall n :: n in LeafObjects(t) ==> fresh(n)
  {
    var m1 := BuildInfrastructure();
    var m2 := BuildApplication();
    ManagerIdsDisjoint();
    t := NewBranch(RootConfig(totalBudget), m1, m2);
  }

  // ---------------------------------------------------------------------------
  // workflow history

  /** One entry of `_workflow_history` (its timestamp is not modelled). */
  datatype WorkflowRecord = WorkflowRecord(id: string, kind: string, success: bool, tokensUsed: int)

  /** `f"WF-{n + 1:04d}"` for a history that already holds `n` entries. */
  function WorkflowId(n: nat): (id: string)
    ensures |id| >= 7 && id[..3] == "WF-"
  {
    "WF-" + Pad4(n + 1)
  }

  /** Every entry carries the id its position was given. */
  predicate SequentialIds(history: seq<WorkflowRecord>) {
    forall k :: 0 <= k < |history| ==> history[k].id == WorkflowId(k)
  }

  /** Different positions get different workflow ids. */
  lemma WorkflowIdInjective(i: nat, j: nat)
    requires i != j
    ensures WorkflowId(i) != WorkflowId(j)
  {
    Pad4Injective(i + 1, j + 1);
    PrefixKeepsDifference("WF-", Pad4(i + 1), Pad4(j + 1));
  }

  lemma PrefixKeepsDifference(p: string, a: string, b: string)
    requires a != b
    ensures p + a != p + b
  {
    assert (p + a)[|p|..] == a;
    assert (p + b)[|p|..] == b;
  }

  /** A history built by appending at the end never repeats an id. */
  lemma SequentialIdsDistinct(history: seq<WorkflowRecord>, i: int, j: int)
    requires SequentialIds(history)
    requires 0 <= i < |history| && 0 <= j < |history| && i != j
    ensures history[i].id != history[j].id
  {
    WorkflowIdInjective(i, j);
  }

  /** The step of one request: the answer and the new history. */
  datatype Step = Step(outcome: Outcome, history: seq<WorkflowRecord>)

  // ---------------------------------------------------------------------------
  // full_workflow

  function WorkflowType(req: Request): Value {
    Get(req, "workflow_type", Str("tenant_report"))
  }

  function WorkflowData(req: Request): Value {
    Get(req, "data", Dict(map[]))
  }

  const TenantsWithConfig: Request := map["action" := Str("get_tenant_data"), "include_config" := Bool(true)]

  /** `config_result.data.get("tenants", [{}])[0]`; None where that raises or
      yields something that is not a dictionary, so that merging it raises. */
  function FirstTenant(config: Value): (t: Option<Value>)
    ensures t.Some? ==> t.value.Dict?
  {
    if !config.Dict? then None
    else
      var tenants := Get(config.fields, "tenants", List([Dict(map[])]));
      if tenants.List? && |tenants.items| > 0 && tenants.items[0].Dict? then Some(tenants.items[0]) else None
  }

  /** The tenant record after the configuration step: the caller's data (or an
      empty dictionary when it is empty) overlaid with the first tenant when
      the step succeeded; None where Python raises before the tool step (the
      overlay, or `.get` on a record that is not a dictionary). */
  function ReportInput(data: Value, config: NodeResult): (r: Option<Value>)
    ensures r.Some? ==> r.value.Dict?
  {
    var start := if Truthy(data) then data else Dict(map[]);
    if config.success then
      match FirstTenant(config.data)
      case None => None
      case Some(first) => Merge(start, first)
    else if start.Dict? then Some(start)
    else None
  }

  function TenantInfoStep(record: map<string, Value>): Request {
    map["action" := Str("execute_tool"), "tool" := Str("get_tenant_info"),
        "params" := Dict(map["tenant_id" := Get(record, "id", Int(1))])]
  }

  function StatementRequest(record: Value): Request {
    map["action" := Str("generate_report"), "report_type" := Str("tenant_statement"), "data" := record]
  }

  /** The data of a completed tenant report: each step's data, or None where it failed. */
  function ReportSummary(id: string, config: NodeResult, tool: NodeResult, report: NodeResult): Value {
    Dict(map["workflow_id" := Str(id), "steps_completed" := Int(4),
             "config" := if config.success then config.data else Null,
             "processing" := if tool.success then tool.data else Null,
             "report" := if report.success then report.data else Null])
  }

  /** `_execute_tenant_report_workflow`: configuration and tenants, tool, report;
      appends one record to the history unless it raises first. */
  function TenantReport(data: Value, left: Child, right: Child, history: seq<WorkflowRecord>): (s: Step)
    ensures s.outcome.result.nodeId == NodeId
  {
    var config := left(TenantsWithConfig);
    match ReportInput(data, config)
    case None => Step(Outcome(Fault(NodeId, BaseTokens), [ToLeft(TenantsWithConfig)]), history)
    case Some(record) =>
      var tool := right(TenantInfoStep(record.fields));
      var final := Dict(if tool.success then record.fields["processed" := tool.data] else record.fields);
      var report := right(StatementRequest(final));
      var tokens := ReportBaseTokens + config.tokensUsed + tool.tokensUsed + report.tokensUsed;
      var id := WorkflowId(|history|);
      Step(Outcome(NodeResult(report.success, ReportSummary(id, config, tool, report), None, tokens, NodeId),
                   [ToLeft(TenantsWithConfig), ToRight(TenantInfoStep(record.fields)), ToRight(StatementRequest(final))]),
           history + [WorkflowRecord(id, "tenant_report", report.success, tokens)])
  }

  const SyncData: Request := map["action" := Str("sync_data")]

  /** `_execute_data_sync_workflow`: the infrastructure's sync, at 30 + sync. */
  function DataSync(left: Child): (o: Outcome)
    ensures o.result.nodeId == NodeId
  {
    var sync := left(SyncData);
    Outcome(NodeResult(sync.success, sync.data, None, BaseTokens + sync.tokensUsed, NodeId), [ToLeft(SyncData)])
  }

  const PaymentReport: Request :=
    map["action" := Str("generate_report"), "report_type" := Str("payment_history"),
        "data" := Dict(map["payments" := List([Dict(map["amount" := Int(1500), "date" := Str("2024-01-01"),
                                                          "method" := Str("check")])])])]

  function AnalysisStep(data: map<string, Value>): Request {
    map["action" := Str("execute_tool"), "tool" := Str("analyze_payments"),
        "params" := Dict(map["tenant_id" := Get(data, "tenant_id", Int(1)), "period" := Str("monthly")])]
  }

  /** One `(name, success)` entry of `pipeline_results`. */
  function StepEntry(name: string, success: bool): Value {
    List([Str(name), Bool(success)])
  }

  /** `_execute_full_pipeline`: configuration, analysis, payment report; succeeds
      exactly when all three do. */
  function FullPipeline(data: Value, left: Child, right: Child): (o: Outcome)
    ensures o.result.nodeId == NodeId
  {
    var config := left(TenantsWithConfig);
    if !data.Dict? then
      // `data.get("tenant_id", 1)` raises
      Outcome(Fault(NodeId, BaseTokens), [ToLeft(TenantsWithConfig)])
    else
      var analysis := right(AnalysisStep(data.fields));
      var pdf := right(PaymentReport);
      Outcome(NodeResult(config.success && analysis.success && pdf.success,
                         Dict(map["pipeline_steps" := List([StepEntry("config_load", config.success),
                                                            StepEntry("mcp_process", analysis.success),
                                                            StepEntry("pdf_generate", pdf.success)]),
                                  "config" := if config.success then config.data else Null,
                                  "analysis" := if analysis.success then analysis.data else Null,
                                  "report" := if pdf.success then pdf.data else Null]),
                         None, PipelineBaseTokens + config.tokensUsed + analysis.tokensUsed + pdf.tokensUsed, NodeId),
              [ToLeft(TenantsWithConfig), ToRight(AnalysisStep(data.fields)), ToRight(PaymentReport)])
  }

  function Workflow(req: Request, left: Child, right: Child, history: seq<WorkflowRecord>): (s: Step)
    ensures s.outcome.result.nodeId == NodeId
  {
    var kind := WorkflowType(req);
    if kind == Str("tenant_report") then TenantReport(WorkflowData(req), left, right, history)
    else if kind == Str("data_sync") then Step(DataSync(left), history)
    else if kind == Str("full_pipeline") then Step(FullPipeline(WorkflowData(req), left, right), history)
    else Step(Outcome(Failure(NodeId, "Unknown workflow type: " + Show(kind), BaseTokens), []), history)
  }

  // ---------------------------------------------------------------------------
  // route_request

  function Target(req: Request): Value {
    Get(req, "target", Str("M100"))
  }

  /** `route_request`: a target starting with "M1" goes to the infrastructure
      manager, one starting with "M2" to the application manager. A target that
      is not a string, or a request that is not a dictionary handed to a child,
      raises before any call completes. */
  function RouteRequest(req: Request, left: Child, right: Child): (o: Outcome)
    ensures o.result.nodeId == NodeId
  {
    var target := Target(req);
    var request := Get(req, "request", Dict(map[]));
    if !target.Str? then Outcome(Fault(NodeId, BaseTokens), [])
    else if !("M1" <= target.s) && !("M2" <= target.s) then
      Outcome(Failure(NodeId, "Unknown target: " + target.s, BaseTokens), [])
    else if !request.Dict? then Outcome(Fault(NodeId, BaseTokens), [])
    else
      var call := if "M1" <= target.s then ToLeft(request.fields) else ToRight(request.fields);
      var r := if call.ToLeft? then left(call.req) else right(call.req);
      Outcome(Forward(NodeId, r, BaseTokens + r.tokensUsed), [call])
  }

  // ---------------------------------------------------------------------------
  // rebalance

  /** What a `rebalance` request rebalances. */
  datatype Scope = Full | Partial(sub: Option<Tree>) | BadTarget

  function RebalanceType(req: Request): Value {
    Get(req, "type", Str("full"))
  }

  /** "full" rebalances the whole tree; anything else rebalances the node the
      `target` path names (None when it names none), or the whole tree when no
      target is given; a target that is not a string cannot be split. */
  function RebalanceScope(req: Request, t: Tree): Scope {
    if RebalanceType(req) == Str("full") then Full
    else
      var target := Get(req, "target", Null);
      if !Truthy(target) then Partial(Some(t))
      else if target.Str? then Partial(Resolve(t, Split(target.s, '.'), RootId))
      else BadTarget
  }

  /** A dictionary of token counts, as the balancer's allocation views are reported. */
  function AllocationsValue(view: map<string, int>): (v: Value)
    ensures v.Dict? && v.fields.Keys == view.Keys
    ensures forall id :: id in view ==> v.fields[id] == Int(view[id])
  {
    Dict(map id | id in view :: Int(view[id]))
  }

  function RebalanceOutcome(req: Request, t: Tree, view: map<string, int>): (o: Outcome)
    ensures o.result.nodeId == NodeId
  {
    if RebalanceScope(req, t).BadTarget? then Outcome(Fault(NodeId, BaseTokens), [])
    else Outcome(NodeResult(true, Dict(map["rebalance_type" := RebalanceType(req), "allocations" := AllocationsValue(view)]),
                            None, BaseTokens, NodeId),
                 [])
  }

  /** The balancer's leaf records after a request, as the balancer promises them. */
  function AllocationsAfter(req: Request, left: Child, t: Tree, totalBudget: int,
                            before: map<string, AllocationRecord>, weights: map<string, NodeWeight>)
    : map<string, AllocationRecord>
  {
    var action := Action(req);
    if action == Str("initialize") && left(InfraInit(req)).success then
      before + Records(BalancedShares(t, totalBudget, weights))
    else if action == Str("rebalance") then RebalanceAllocations(req, t, totalBudget, before, weights)
    else before
  }

  /** The leaf records after a `rebalance` request. */
  function RebalanceAllocations(req: Request, t: Tree, totalBudget: int,
                                before: map<string, AllocationRecord>, weights: map<string, NodeWeight>)
    : map<string, AllocationRecord>
  {
    match RebalanceScope(req, t)
    case Full => Records(BalancedShares(t, totalBudget, weights))
    case Partial(Some(s)) => Rebalanced(s, before, weights)
    case _ => before
  }

  lemma RespondByAction(req: Request, left: Child, right: Child, t: Tree, history: seq<WorkflowRecord>,
                        view: map<string, int>)
    ensures Action(req) == Str("initialize") ==>
              Respond(req, left, right, t, history, view) == Step(InitializeOutcome(req, left, right, view), history)
    ensures Action(req) == Str("rebalance") ==>
              Respond(req, left, right, t, history, view) == Step(RebalanceOutcome(req, t, view), history)
    ensures Action(req) == Str("full_workflow") && WorkflowType(req) == Str("tenant_report") ==>
              Respond(req, left, right, t, history, view) == TenantReport(WorkflowData(req), left, right, history)
    ensures Action(req) == Str("full_workflow") ==>
              Respond(req, left, right, t, history, view) == Workflow(req, left, right, history)
    ensures Action(req) == Str("route_request") ==>
              Respond(req, left, right, t, history, view) == Step(RouteRequest(req, left, right), history)
    ensures Action(req) == Str("status") ==>
              Respond(req, left, right, t, history, view) ==
              Step(StatusOutcome(left, right, |CollectLeaves(t)|, |history|), history)
    ensures Action(req) == Str("get_capabilities") ==>
              Respond(req, left, right, t, history, view) == Step(CapabilitiesOutcome(right), history)
  {}

  /** Only `initialize` and `rebalance` touch the leaf records. */
  lemma AllocationsByAction(req: Request, left: Child, t: Tree, totalBudget: int, before: map<string, AllocationRecord>,
                            weights: map<string, NodeWeight>)
    ensures Action(req) == Str("rebalance") ==>
              AllocationsAfter(req, left, t, totalBudget, before, weights) ==
              RebalanceAllocations(req, t, totalBudget, before, weights)
    ensures Action(req) != Str("rebalance") && Action(req) != Str("initialize") ==>
              AllocationsAfter(req, left, t, totalBudget, before, weights) == before
  {}

  /** An `initialize` request distributes the whole budget exactly when the
      infrastructure comes up, and reports the balancer's whole view. */
  lemma InitializeEffect(req: Request, left: Child, t: Tree, totalBudget: int, before: map<string, AllocationRecord>,
                         weights: map<string, NodeWeight>, after: map<string, AllocationRecord>)
    requires Action(req) == Str("initialize")
    ensures AllocationsAfter(req, left, t, totalBudget, before, weights) ==
              if left(InfraInit(req)).success then before + Records(BalancedShares(t, totalBudget, weights)) else before
    ensures ViewAfter(req, t, after) == Granted(after)
  {}

  /** What each rebalance scope does to the leaf records and which view it returns. */
  lemma RebalanceScopeEffect(req: Request, t: Tree, totalBudget: int, before: map<string, AllocationRecord>,
                             weights: map<string, NodeWeight>, after: map<string, AllocationRecord>)
    requires Action(req) == Str("rebalance")
    ensures RebalanceScope(req, t).Full? ==>
              RebalanceAllocations(req, t, totalBudget, before, weights) == Records(BalancedShares(t, totalBudget, weights))
              && ViewAfter(req, t, after) == Granted(after)
    ensures RebalanceScope(req, t) == Partial(None) ==>
              RebalanceAllocations(req, t, totalBudget, before, weights) == before && ViewAfter(req, t, after) == map[]
    ensures RebalanceScope(req, t).Partial? && RebalanceScope(req, t).sub.Some? ==>
              RebalanceAllocations(req, t, totalBudget, before, weights) == Rebalanced(RebalanceScope(req, t).sub.value, before, weights)
              && ViewAfter(req, t, after) == Granted(after)
    ensures RebalanceScope(req, t).BadTarget? ==> RebalanceAllocations(req, t, totalBudget, before, weights) == before
  {}

  lemma UnionWithEmpty<K, V>(m: map<K, V>)
    ensures map[] + m == m
  {}

  /** The allocation view the balancer hands back for a request. */
  function ViewAfter(req: Request, t: Tree, allocations: map<string, AllocationRecord>): map<string, int> {
    if Action(req) == Str("rebalance") && RebalanceScope(req, t) == Partial(None) then map[] else Granted(allocations)
  }

  // ---------------------------------------------------------------------------
  // process

  /** `input_data.get("action", "status")`. */
  function Action(req: Request): Value {
    Get(req, "action", Str("status"))
  }

  predicate Known(action: Value) {
    action in {Str("initialize"), Str("full_workflow"), Str("route_request"), Str("rebalance"), Str("status"),
               Str("get_capabilities")}
  }

  function InfraInit(req: Request): Request {
    map["action" := Str("initialize"), "config_path" := Get(req, "config_path", Str("config/settings.yaml"))]
  }

  const AppStatus: Request := map["action" := Str("status")]
  const InfraStatus: Request := map["action" := Str("system_status")]
  const AppCapabilities: Request := map["action" := Str("capabilities")]

  /** `initialize`: the infrastructure first (fail-fast), then the application's
      status, then the token distribution, whose view is `view`. */
  function InitializeOutcome(req: Request, left: Child, right: Child, view: map<string, int>): (o: Outcome)
    ensures o.result.nodeId == NodeId
  {
    var infra := left(InfraInit(req));
    if !infra.success then
      Outcome(Failure(NodeId, "Infrastructure initialization failed: " + ShowError(infra.error), BaseTokens + infra.tokensUsed),
              [ToLeft(InfraInit(req))])
    else
      var app := right(AppStatus);
      Outcome(NodeResult(true,
                         Dict(map["infrastructure" := infra.data, "application" := app.data,
                                  "token_allocations" := AllocationsValue(view), "system_ready" := Bool(true)]),
                         None, BaseTokens + infra.tokensUsed + app.tokensUsed, NodeId),
              [ToLeft(InfraInit(req)), ToRight(AppStatus)])
  }

  /** `status` for a tree with `leaves` leaves and a history of the given length. */
  function StatusOutcome(left: Child, right: Child, leaves: nat, workflows: nat): (o: Outcome)
    ensures o.result.nodeId == NodeId
  {
    var infra, app := left(InfraStatus), right(AppStatus);
    Outcome(NodeResult(true,
                       Dict(map["tree_structure" := Dict(map["total_nodes" := Int(15), "levels" := Int(4), "leaves" := Int(leaves)]),
                                "infrastructure" := if infra.success then infra.data else Dict(map[]),
                                "application" := if app.success then app.data else Dict(map[]),
                                "workflow_count" := Int(workflows)]),
                       None, BaseTokens + infra.tokensUsed + app.tokensUsed, NodeId),
            [ToLeft(InfraStatus), ToRight(AppStatus)])
  }

  const InfrastructureActions: Value :=
    List([Str("initialize"), Str("get_tenant_data"), Str("save_tenant"), Str("config_update"), Str("sync_data")])
  const SystemActions: Value :=
    List([Str("initialize"), Str("full_workflow"), Str("route_request"), Str("rebalance"), Str("status"), Str("get_capabilities")])

  function CapabilitiesOutcome(right: Child): (o: Outcome)
    ensures o.result.nodeId == NodeId
  {
    var caps := right(AppCapabilities);
    Outcome(NodeResult(true,
                       Dict(map["infrastructure_actions" := InfrastructureActions,
                                "application_actions" := if caps.success then caps.data else Dict(map[]),
                                "system_actions" := SystemActions]),
                       None, BaseTokens + caps.tokensUsed, NodeId),
            [ToRight(AppCapabilities)])
  }

  /** `RootOrchestratorNode.process` for the tree `t`, a history, and the view
      the balancer hands back when the request distributes tokens. */
  function Respond(req: Request, left: Child, right: Child, t: Tree, history: seq<WorkflowRecord>,
                   view: map<string, int>): (s: Step)
    ensures s.outcome.result.nodeId == NodeId
  {
    var action := Action(req);
    if action == Str("initialize") then Step(InitializeOutcome(req, left, right, view), history)
    else if action == Str("full_workflow") then Workflow(req, left, right, history)
    else if action == Str("route_request") then Step(RouteRequest(req, left, right), history)
    else if action == Str("rebalance") then Step(RebalanceOutcome(req, t, view), history)
    else if action == Str("status") then Step(StatusOutcome(left, right, |CollectLeaves(t)|, |history|), history)
    else if action == Str("get_capabilities") then Step(CapabilitiesOutcome(right), history)
    else Step(Outcome(Failure(NodeId, UnknownActionError(action), BaseTokens), []), history)
  }

  // ---------------------------------------------------------------------------
  // properties of process

  /** Without an action the root reports its status. */
  lemma DefaultActionIsStatus(left: Child, right: Child, t: Tree, history: seq<WorkflowRecord>, view: map<string, int>)
    ensures Action(map[]) == Str("status")
    ensures Respond(map[], left, right, t, history, view) ==
              Step(StatusOutcome(left, right, |CollectLeaves(t)|, |history|), history)
  {}

  /** An action outside the six known ones fails at the base cost, calls no
      child and leaves the history alone. */
  lemma UnknownActionRule(req: Request, left: Child, right: Child, t: Tree, history: seq<WorkflowRecord>,
                          view: map<string, int>)
    requires !Known(Action(req))
    ensures var s := Respond(req, left, right, t, history, view);
      && !s.outcome.result.success && s.outcome.result.error == Some(UnknownActionError(Action(req)))
      && s.outcome.result.tokensUsed == BaseTokens && s.outcome.calls == [] && s.history == history
  {}

  /** Only a tenant report that gets past its configuration step records a
      workflow, and the record it appends carries the next id and mirrors the
      report's success and total cost. */
  lemma TenantReportHistory(data: Value, left: Child, right: Child, history: seq<WorkflowRecord>)
    ensures var s := TenantReport(data, left, right, history);
      && (ReportInput(data, left(TenantsWithConfig)).None? ==> s.history == history)
      && (ReportInput(data, left(TenantsWithConfig)).Some? ==>
            s.history == history + [WorkflowRecord(WorkflowId(|history|), "tenant_report",
                                                   s.outcome.result.success, s.outcome.result.tokensUsed)])
  {}

  /** The history changes only through a `tenant_report` workflow, by exactly
      one record at the end. */
  lemma HistoryGrowsOnlyByReports(req: Request, left: Child, right: Child, t: Tree, history: seq<WorkflowRecord>,
                                  view: map<string, int>)
    ensures var s := Respond(req, left, right, t, history, view);
      && (s.history != history <==>
            Action(req) == Str("full_workflow") && WorkflowType(req) == Str("tenant_report")
            && ReportInput(WorkflowData(req), left(TenantsWithConfig)).Some?)
      && (s.history != history ==>
            s.history == history + [WorkflowRecord(WorkflowId(|history|), "tenant_report",
                                                   s.outcome.result.success, s.outcome.result.tokensUsed)])
  {
    if Action(req) == Str("full_workflow") && WorkflowType(req) == Str("tenant_report") {
      TenantReportHistory(WorkflowData(req), left, right, history);
      var s := TenantReport(WorkflowData(req), left, right, history);
      if s.history != history {
        assert |s.history| == |history| + 1;
      }
    }
  }

  lemma AppendKeepsSequentialIds(history: seq<WorkflowRecord>, r: WorkflowRecord)
    requires SequentialIds(history) && r.id == WorkflowId(|history|)
    ensures SequentialIds(history + [r])
  {
    var h := history + [r];
    forall k | 0 <= k < |h|
      ensures h[k].id == WorkflowId(k)
    {
      if k < |history| {
        assert h[k] == history[k];
      }
    }
  }

  /** Every request keeps the history's ids sequential, so no two workflows
      ever share an id. */
  lemma RespondKeepsSequentialIds(req: Request, left: Child, right: Child, t: Tree, history: seq<WorkflowRecord>,
                                  view: map<string, int>)
    requires SequentialIds(history)
    ensures SequentialIds(Respond(req, left, right, t, history, view).history)
  {
    HistoryGrowsOnlyByReports(req, left, right, t, history, view);
    var s := Respond(req, left, right, t, history, view);
    if s.history != history {
      AppendKeepsSequentialIds(history, WorkflowRecord(WorkflowId(|history|), "tenant_report",
                                                       s.outcome.result.success, s.outcome.result.tokensUsed));
    }
  }

  /** The tenant record after the configuration step: the first tenant's
      fields win over the caller's; on a failed step the caller's data is
      used as it is (an empty dictionary when it is empty). */
  lemma ReportInputRule(data: Value, config: NodeResult, k: string)
    ensures config.success && data.Dict? && FirstTenant(config.data).Some? ==>
              var first := FirstTenant(config.data).value;
              && ReportInput(data, config).Some?
              && (k in first.fields ==> ReportInput(data, config).value.fields[k] == first.fields[k])
              && (k in data.fields && k !in first.fields ==> ReportInput(data, config).value.fields[k] == data.fields[k])
    ensures config.success && FirstTenant(config.data).None? ==> ReportInput(data, config).None?
    ensures !config.success && data.Dict? ==> ReportInput(data, config) == Some(data)
    ensures !config.success && !Truthy(data) ==> ReportInput(data, config) == Some(Dict(map[]))
  {
    if config.success && data.Dict? && FirstTenant(config.data).Some? {
      var first := FirstTenant(config.data).value;
      var start := if Truthy(data) then data else Dict(map[]);
      MergeLookup(start, first, k);
      if !Truthy(data) {
        assert data.fields == map[];
      }
    }
  }

  /** A tenant report past its configuration step makes the three calls in
      order, sends the record (with the tool's data under "processed" when the
      tool succeeded) to the report, succeeds with the report and costs 50 plus
      the three children. */
  lemma TenantReportRule(data: Value, left: Child, right: Child, history: seq<WorkflowRecord>)
    ensures ReportInput(data, left(TenantsWithConfig)).None? ==>
              TenantReport(data, left, right, history).outcome ==
              Outcome(Fault(NodeId, BaseTokens), [ToLeft(TenantsWithConfig)])
    ensures ReportInput(data, left(TenantsWithConfig)).Some? ==>
              var config := left(TenantsWithConfig);
              var record := ReportInput(data, config).value;
              var tool := right(TenantInfoStep(record.fields));
              var o := TenantReport(data, left, right, history).outcome;
              && |o.calls| == 3 && o.calls[0] == ToLeft(TenantsWithConfig) && o.calls[1] == ToRight(TenantInfoStep(record.fields))
              && o.calls[2].ToRight? && o.calls[2].req["report_type"] == Str("tenant_statement")
              && o.calls[2].req["data"].Dict?
              && (tool.success ==> o.calls[2].req["data"].fields["processed"] == tool.data)
              && (forall k :: k in record.fields && k != "processed" ==>
                                 (k in o.calls[2].req["data"].fields && o.calls[2].req["data"].fields[k] == record.fields[k]))
              && o.result.success == right(o.calls[2].req).success
              && o.result.error == None
              && o.result.tokensUsed ==
                   ReportBaseTokens + config.tokensUsed + tool.tokensUsed + right(o.calls[2].req).tokensUsed
              && o.result.data.fields["workflow_id"] == Str(WorkflowId(|history|))
  {}

  /** The data-sync workflow mirrors the infrastructure's sync at 30 plus its cost. */
  lemma DataSyncRule(left: Child)
    ensures DataSync(left).calls == [ToLeft(SyncData)]
    ensures DataSync(left).result.success == left(SyncData).success
    ensures DataSync(left).result.data == left(SyncData).data
    ensures DataSync(left).result.tokensUsed == BaseTokens + left(SyncData).tokensUsed
  {}

  /** The full pipeline succeeds exactly when its three steps do, records each
      step's outcome in order, and costs 100 plus the three children; data
      that is not a dictionary faults after the configuration call. */
  lemma FullPipelineRule(data: Value, left: Child, right: Child)
    ensures !data.Dict? ==> FullPipeline(data, left, right) == Outcome(Fault(NodeId, BaseTokens), [ToLeft(TenantsWithConfig)])
    ensures data.Dict? ==>
              var o := FullPipeline(data, left, right);
              var config, analysis, pdf := left(TenantsWithConfig), right(AnalysisStep(data.fields)), right(PaymentReport);
              && o.calls == [ToLeft(TenantsWithConfig), ToRight(AnalysisStep(data.fields)), ToRight(PaymentReport)]
              && (o.result.success <==> config.success && analysis.success && pdf.success)
              && o.result.data.fields["pipeline_steps"] ==
                   List([StepEntry("config_load", config.success), StepEntry("mcp_process", analysis.success),
                         StepEntry("pdf_generate", pdf.success)])
              && o.result.tokensUsed == PipelineBaseTokens + config.tokensUsed + analysis.tokensUsed + pdf.tokensUsed
  {}

  /** An unknown workflow type fails at the base cost without calling a child. */
  lemma UnknownWorkflowRule(req: Request, left: Child, right: Child, history: seq<WorkflowRecord>)
    requires WorkflowType(req) !in {Str("tenant_report"), Str("data_sync"), Str("full_pipeline")}
    ensures var s := Workflow(req, left, right, history);
      && s.outcome.result == Failure(NodeId, "Unknown workflow type: " + Show(WorkflowType(req)), BaseTokens)
      && s.outcome.calls == [] && s.history == history
  {}

  /** A target starting with "M1" reaches the infrastructure manager and one
      starting with "M2" the application manager, with the request as given
      and the child's answer forwarded at 30 plus its cost; any other string
      target is refused without a call; a target that is not a string, or a
      request that is not a dictionary, faults without a call. */
  lemma RouteRequestRule(req: Request, left: Child, right: Child)
    ensures var target, request := Target(req), Get(req, "request", Dict(map[]));
      var o := RouteRequest(req, left, right);
      && (!target.Str? ==> o == Outcome(Fault(NodeId, BaseTokens), []))
      && (target.Str? && !("M1" <= target.s) && !("M2" <= target.s) ==>
            o == Outcome(Failure(NodeId, "Unknown target: " + target.s, BaseTokens), []))
      && (target.Str? && ("M1" <= target.s || "M2" <= target.s) && !request.Dict? ==>
            o == Outcome(Fault(NodeId, BaseTokens), []))
      && (target.Str? && "M1" <= target.s && request.Dict? ==>
            o.calls == [ToLeft(request.fields)]
            && o.result == Forward(NodeId, left(request.fields), BaseTokens + left(request.fields).tokensUsed))
      && (target.Str? && !("M1" <= target.s) && "M2" <= target.s && request.Dict? ==>
            o.calls == [ToRight(request.fields)]
            && o.result == Forward(NodeId, right(request.fields), BaseTokens + right(request.fields).tokensUsed))
  {}

  /** Without a target, the request goes to the infrastructure manager. */
  lemma RouteDefaultsToInfrastructure(req: Request, left: Child, right: Child)
    requires "target" !in req && "request" in req && req["request"].Dict?
    ensures RouteRequest(req, left, right).calls == [ToLeft(req["request"].fields)]
  {
    assert "M1" <= "M100";
  }

  /** A rebalance answers with the balancer's view, one entry per leaf record,
      unless its target cannot be split. */
  lemma RebalanceRule(req: Request, t: Tree, view: map<string, int>)
    ensures var o := RebalanceOutcome(req, t, view);
      && (RebalanceScope(req, t).BadTarget? <==> !o.result.success)
      && o.calls == [] && o.result.tokensUsed == BaseTokens
      && (o.result.success ==> o.result.data.fields["allocations"].fields.Keys == view.Keys)
  {}

  /** A partial rebalance of a path addresses a node inside the tree. */
  lemma RebalanceTargetInTree(req: Request, t: Tree)
    requires RebalanceScope(req, t).Partial? && RebalanceScope(req, t).sub.Some?
    ensures IsSubtree(RebalanceScope(req, t).sub.value, t)
  {
    var target := Get(req, "target", Null);
    if Truthy(target) {
      ResolveGivesSubtree(t, Split(target.s, '.'), RootId);
    }
  }

  /** `status` always succeeds, reports the leaf count it is given and the
      number of recorded workflows, and costs 30 plus both managers. */
  lemma StatusRule(left: Child, right: Child, leaves: nat, workflows: nat)
    ensures var o := StatusOutcome(left, right, leaves, workflows);
      && o.result.success
      && o.result.data.fields["tree_structure"].fields["leaves"] == Int(leaves)
      && o.result.data.fields["workflow_count"] == Int(workflows)
      && o.calls == [ToLeft(InfraStatus), ToRight(AppStatus)]
      && o.result.tokensUsed == BaseTokens + left(InfraStatus).tokensUsed + right(AppStatus).tokensUsed
  {}

  /** On the built tree, `status` counts its eight leaves. */
  lemma StatusCountsEightLeaves(req: Request, left: Child, right: Child, t: Tree, history: seq<WorkflowRecord>,
                                view: map<string, int>)
    requires HasBuiltLayout(t) && Action(req) == Str("status")
    ensures Respond(req, left, right, t, history, view).outcome.result.data.fields["tree_structure"].fields["leaves"] == Int(8)
  {
    BuiltLeaves(t);
    StatusRule(left, right, |CollectLeaves(t)|, |history|);
  }

  /** `get_capabilities` lists the root's own actions and the infrastructure's,
      and the application's capabilities (empty when it fails), at 30 plus the
      application's cost. */
  lemma CapabilitiesRule(right: Child)
    ensures var o := CapabilitiesOutcome(right);
      && o.result.success && o.calls == [ToRight(AppCapabilities)]
      && o.result.data.fields["system_actions"] == SystemActions
      && o.result.data.fields["infrastructure_actions"] == InfrastructureActions
      && o.result.data.fields["application_actions"] ==
           (if right(AppCapabilities).success then right(AppCapabilities).data else Dict(map[]))
      && o.result.tokensUsed == BaseTokens + right(AppCapabilities).tokensUsed
  {}

  /** `initialize` stops at a failed infrastructure with its error; otherwise
      it asks the application for its status and reports the allocations. */
  lemma InitializeRule(req: Request, left: Child, right: Child, view: map<string, int>)
    ensures var infra, o := left(InfraInit(req)), InitializeOutcome(req, left, right, view);
      && o.result.success == infra.success
      && (!infra.success ==> o.calls == [ToLeft(InfraInit(req))]
                             && o.result.error == Some("Infrastructure initialization failed: " + ShowError(infra.error))
                             && o.result.tokensUsed == BaseTokens + infra.tokensUsed)
      && (infra.success ==> o.calls == [ToLeft(InfraInit(req)), ToRight(AppStatus)]
                            && o.result.data.fields["token_allocations"].fields.Keys == view.Keys
                            && o.result.tokensUsed == BaseTokens + infra.tokensUsed + right(AppStatus).tokensUsed)
  {}

  /** Every answer costs at least the root's own 30 tokens when the children
      never report a negative cost. */
  lemma CostCoversBase(req: Request, left: Child, right: Child, t: Tree, history: seq<WorkflowRecord>,
                       view: map<string, int>)
    requires NonNegativeTokens(left) && NonNegativeTokens(right)
    ensures Respond(req, left, right, t, history, view).outcome.result.tokensUsed >= BaseTokens
  {
    var action := Action(req);
    RespondByAction(req, left, right, t, history, view);
    if action == Str("initialize") {
      InitializeRule(req, left, right, view);
    } else if action == Str("full_workflow") {
      WorkflowCostCoversBase(req, left, right, history);
    } else if action == Str("route_request") {
      RouteRequestRule(req, left, right);
    } else if action == Str("rebalance") {
      RebalanceRule(req, t, view);
    } else if action == Str("status") {
      StatusRule(left, right, |CollectLeaves(t)|, |history|);
    } else if action == Str("get_capabilities") {
      CapabilitiesRule(right);
    } else {
      UnknownActionRule(req, left, right, t, history, view);
    }
  }

  lemma WorkflowCostCoversBase(req: Request, left: Child, right: Child, history: seq<WorkflowRecord>)
    requires NonNegativeTokens(left) && NonNegativeTokens(right)
    ensures Workflow(req, left, right, history).outcome.result.tokensUsed >= BaseTokens
  {
    var kind := WorkflowType(req);
    if kind == Str("tenant_report") {
      TenantReportRule(WorkflowData(req), left, right, history);
    } else if kind == Str("data_sync") {
      DataSyncRule(left);
    } else if kind == Str("full_pipeline") {
      FullPipelineRule(WorkflowData(req), left, right);
    } else {
      UnknownWorkflowRule(req, left, right, history);
    }
  }

  // ---------------------------------------------------------------------------
  // the node

  /** `TokenBalancer(total_token_budget)` followed by the initial `balance_tokens`. */
  method NewBalancer(t: Tree, totalBudget: int) returns (b: TokenBalancer)
    requires Wf(t)
    modifies LeafObjects(t)`allocation
    ensures fresh(b) && b.totalBudget == totalBudget && b.nodeWeights == map[]
    ensures b.leafAllocations == Records(BalancedShares(t, totalBudget, map[]))
    ensures SubtreeBudget(t, b.leafAllocations) == totalBudget
    ensures forall n :: n in LeafObjects(t) ==> n.allocation == b.GetAllocation(n.Id())
  {
    b := new TokenBalancer(totalBudget);
    var _ := b.BalanceTokens(t);
    UnionWithEmpty(Records(BalancedShares(t, totalBudget, map[])));
  }

  class RootOrchestrator {
    const tree: Tree
    const balancer: TokenBalancer
    var workflowHistory: seq<WorkflowRecord>

    /** The tree has the layout `_init_children` builds, and every leaf holds the
        allocation the balancer records for it. */
    predicate Valid()
      reads balancer, LeafObjects(tree)
    {
      HasBuiltLayout(tree) && Wf(tree) && LeavesAgree()
    }

    /** Each leaf's `allocation` is the balancer's `get_allocation` for its id. */
    predicate LeavesAgree()
      reads balancer, LeafObjects(tree)
    {
      forall n :: n in LeafObjects(tree) ==> n.allocation == balancer.GetAllocation(n.Id())
    }

    /** `RootOrchestratorNode(total_token_budget)`: build the tree, create the
        balancer with the whole budget, and distribute it over the leaves. */
    constructor (totalBudget: int)
      ensures Valid() && workflowHistory == [] && SequentialIds(workflowHistory)
      ensures ConfiguredAsBuilt(tree, totalBudget)
      ensures balancer.totalBudget == totalBudget && balancer.nodeWeights == map[]
      ensures balancer.leafAllocations == Records(BalancedShares(tree, totalBudget, map[]))
      ensures SubtreeBudget(tree, balancer.leafAllocations) == totalBudget
      ensures forall n :: n in LeafObjects(tree) ==> n.allocation == balancer.GetAllocation(n.Id())
    {
      var t := BuildTree(totalBudget);
      tree := t;
      var b := NewBalancer(t, totalBudget);
      balancer := b;
      workflowHistory := [];
    }

    /** `_distribute_tokens`: the balancer's distribution over the whole tree. */
    method DistributeTokens() returns (view: map<string, int>)
      requires Wf(tree)
      modifies balancer, LeafObjects(tree)`allocation
      ensures balancer.leafAllocations ==
                old(balancer.leafAllocations) + Records(BalancedShares(tree, balancer.totalBudget, balancer.nodeWeights))
      ensures balancer.nodeWeights == old(balancer.nodeWeights)
      ensures SubtreeBudget(tree, balancer.leafAllocations) == balancer.totalBudget
      ensures view == Granted(balancer.leafAllocations)
      ensures forall n :: n in LeafObjects(tree) ==> n.allocation == balancer.GetAllocation(n.Id())
    {
      view := balancer.BalanceTokens(tree);
    }

    /** `_get_node_by_path`: split the path at dots and walk down from the root. */
    method GetNodeByPath(path: string) returns (r: Option<Tree>)
      ensures r == Resolve(tree, Split(path, '.'), RootId)
      ensures r.Some? ==> IsSubtree(r.value, tree)
    {
      var parts := Split(path, '.');
      var current := tree;
      var i := 0;
      while i < |parts|
        invariant 0 <= i <= |parts|
        invariant Resolve(tree, parts, RootId) == Resolve(current, parts[i..], RootId)
      {
        assert parts[i..][1..] == parts[i + 1..];
        var part := parts[i];
        if part != RootId {
          if current.Node? && current.left.Id() == part {
            current := current.left;
          } else if current.Node? && current.right.Id() == part {
            current := current.right;
          } else {
            r := None;
            return;
          }
        }
        i := i + 1;
      }
      r := Some(current);
      assert r == Resolve(current, parts[i..], RootId);
      ResolveGivesSubtree(tree, parts, RootId);
    }

    /** `_execute_tenant_report_workflow`, appending to the history in place. */
    method RunTenantReport(data: Value, left: Child, right: Child) returns (o: Outcome)
      modifies this`workflowHistory
      ensures Step(o, workflowHistory) == TenantReport(data, left, right, old(workflowHistory))
    {
      var id := WorkflowId(|workflowHistory|);
      var config := left(TenantsWithConfig);
      var tokens := ReportBaseTokens + config.tokensUsed;
      var record := ReportInput(data, config);
      if record.None? {
        o := Outcome(Fault(NodeId, BaseTokens), [ToLeft(TenantsWithConfig)]);
        return;
      }
      var fields := record.value.fields;
      var tool := right(TenantInfoStep(fields));
      tokens := tokens + tool.tokensUsed;
      if tool.success {
        fields := fields["processed" := tool.data];
      }
      var report := right(StatementRequest(Dict(fields)));
      tokens := tokens + report.tokensUsed;
      workflowHistory := workflowHistory + [WorkflowRecord(id, "tenant_report", report.success, tokens)];
      o := Outcome(NodeResult(report.success, ReportSummary(id, config, tool, report), None, tokens, NodeId),
                   [ToLeft(TenantsWithConfig), ToRight(TenantInfoStep(record.value.fields)), ToRight(StatementRequest(Dict(fields)))]);
    }

    /** The balancer's partial rebalance of the subtree `s`, which keeps every
        leaf in step with the balancer's records, inside and outside `s`. */
    method RebalanceSubtree(s: Tree) returns (view: map<string, int>)
      requires Wf(tree) && LeavesAgree() && IsSubtree(s, tree)
      modifies balancer, LeafObjects(tree)`allocation
      ensures LeavesAgree()
      ensures balancer.nodeWeights == old(balancer.nodeWeights)
      ensures balancer.leafAllocations == Rebalanced(s, old(balancer.leafAllocations), balancer.nodeWeights)
      ensures view == Granted(balancer.leafAllocations)
    {
      SubtreeInherits(s, tree);
      LeafObjectsAllocated(tree);
      view := balancer.RebalancePartial(Some(s));
      forall n | n in LeafObjects(tree) && n !in LeafObjects(s)
        ensures n.allocation == balancer.GetAllocation(n.Id())
      {
        assert n.allocation == old(n.allocation) == AllocationOf(old(balancer.leafAllocations), n.Id());
        RebalancedKeepsOutsideLeaf(s, tree, old(balancer.leafAllocations), balancer.nodeWeights, n);
      }
    }

    /** `initialize`, distributing the whole budget once the infrastructure is up. */
    method InitializeSystem(req: Request, left: Child, right: Child) returns (o: Outcome)
      requires Wf(tree) && LeavesAgree() && Action(req) == Str("initialize")
      modifies balancer, LeafObjects(tree)`allocation
      ensures LeavesAgree()
      ensures balancer.nodeWeights == old(balancer.nodeWeights)
      ensures balancer.leafAllocations ==
                AllocationsAfter(req, left, tree, balancer.totalBudget, old(balancer.leafAllocations), balancer.nodeWeights)
      ensures left(InfraInit(req)).success ==> SubtreeBudget(tree, balancer.leafAllocations) == balancer.totalBudget
      ensures o == InitializeOutcome(req, left, right, ViewAfter(req, tree, balancer.leafAllocations))
    {
      InitializeEffect(req, left, tree, balancer.totalBudget, balancer.leafAllocations, balancer.nodeWeights,
                       balancer.leafAllocations);
      var infra := left(InfraInit(req));
      if !infra.success {
        o := InitializeOutcome(req, left, right, map[]);
        return;
      }
      var view := DistributeTokens();
      InitializeEffect(req, left, tree, balancer.totalBudget, old(balancer.leafAllocations), balancer.nodeWeights,
                       balancer.leafAllocations);
      o := InitializeOutcome(req, left, right, view);
    }

    /** `rebalance`: a full rebalance, or a partial one over the target's subtree. */
    method Rebalance(req: Request) returns (o: Outcome)
      requires Wf(tree) && LeavesAgree() && Action(req) == Str("rebalance")
      modifies balancer, LeafObjects(tree)`allocation
      ensures LeavesAgree()
      ensures balancer.nodeWeights == old(balancer.nodeWeights)
      ensures balancer.leafAllocations ==
                RebalanceAllocations(req, tree, balancer.totalBudget, old(balancer.leafAllocations), balancer.nodeWeights)
      ensures RebalanceScope(req, tree).Full? ==> SubtreeBudget(tree, balancer.leafAllocations) == balancer.totalBudget
      ensures o == RebalanceOutcome(req, tree, ViewAfter(req, tree, balancer.leafAllocations))
    {
      LeafObjectsAllocated(tree);
      var view: map<string, int>;
      if RebalanceType(req) == Str("full") {
        assert RebalanceScope(req, tree) == Full;
        view := balancer.RebalanceFull(tree);
        RebalanceScopeEffect(req, tree, balancer.totalBudget, old(balancer.leafAllocations), balancer.nodeWeights,
                             balancer.leafAllocations);
      } else {
        var target := Get(req, "target", Null);
        var sub: Option<Tree>;
        if !Truthy(target) {
          sub := Some(tree);
        } else if target.Str? {
          sub := GetNodeByPath(target.s);
        } else {
          assert RebalanceScope(req, tree) == BadTarget;
          RebalanceScopeEffect(req, tree, balancer.totalBudget, balancer.leafAllocations, balancer.nodeWeights,
                               balancer.leafAllocations);
          o := Outcome(Fault(NodeId, BaseTokens), []);
          return;
        }
        assert RebalanceScope(req, tree) == Partial(sub);
        if sub.Some? {
          view := RebalanceSubtree(sub.value);
        } else {
          view := balancer.RebalancePartial(None);
        }
        RebalanceScopeEffect(req, tree, balancer.totalBudget, old(balancer.leafAllocations), balancer.nodeWeights,
                             balancer.leafAllocations);
      }
      o := RebalanceOutcome(req, tree, view);
    }
    /** `process`: dispatch on the action; `initialize` and `rebalance` drive
        the balancer, a `tenant_report` workflow appends to the history. */
    method Process(req: Request, left: Child, right: Child) returns (o: Outcome)
      requires Valid() && SequentialIds(workflowHistory)
      modifies this`workflowHistory, balancer, LeafObjects(tree)`allocation
      ensures Valid() && SequentialIds(workflowHistory)
      ensures Step(o, workflowHistory) ==
                Respond(req, left, right, tree, old(workflowHistory), ViewAfter(req, tree, balancer.leafAllocations))
      ensures balancer.nodeWeights == old(balancer.nodeWeights)
      ensures balancer.leafAllocations ==
                AllocationsAfter(req, left, tree, balancer.totalBudget, old(balancer.leafAllocations), balancer.nodeWeights)
    {
      LeafObjectsAllocated(tree);
      var action := Action(req);
      ghost var view := ViewAfter(req, tree, balancer.leafAllocations);
      if action == Str("initialize") {
        o := InitializeSystem(req, left, right);
        view := ViewAfter(req, tree, balancer.leafAllocations);
        RespondByAction(req, left, right, tree, old(workflowHistory), view);
      } else if action == Str("rebalance") {
        o := Rebalance(req);
        view := ViewAfter(req, tree, balancer.leafAllocations);
        RespondByAction(req, left, right, tree, old(workflowHistory), view);
      } else if action == Str("full_workflow") && WorkflowType(req) == Str("tenant_report") {
        o := RunTenantReport(WorkflowData(req), left, right);
        RespondByAction(req, left, right, tree, old(workflowHistory), view);
      } else {
        o := Respond(req, left, right, tree, workflowHistory, ViewAfter(req, tree, balancer.leafAllocations)).outcome;
        HistoryGrowsOnlyByReports(req, left, right, tree, workflowHistory, view);
      }
      RespondKeepsSequentialIds(req, left, right, tree, old(workflowHistory), view);
      AllocationsByAction(req, left, tree, balancer.totalBudget, old(balancer.leafAllocations), balancer.nodeWeights);
    }
  }
}
