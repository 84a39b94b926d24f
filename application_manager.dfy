/** M200, the application manager: coordinates the server handler (left, M210)
    and the output handler (right, M220). Every branch forwards to one or both
    children; the only state it reads beyond the request is the output
    handler's `get_status()` report, taken as a parameter. */
module ApplicationManager {
  import opened Values
  import opened Results

  const NodeId := "M200"

  /** Cost charged by this node itself on every request. */
  const BaseTokens := 25

  /** `input_data.get("action", "status")`. */
  function Action(req: Request): Value {
    Get(req, "action", Str("status"))
  }

  predicate Known(action: Value) {
    action in {Str("process_request"), Str("generate_report"), Str("execute_tool"), Str("full_pipeline"),
               Str("capabilities"), Str("status")}
  }

  // ---------------------------------------------------------------------------
  // process_request

  function RequestType(req: Request): Value {
    Get(req, "request_type", Str("api"))
  }

  /** The child and request a `process_request` is routed to; None for an
      unknown request type. */
  function Route(req: Request): (c: Option<Call>)
    ensures c.Some? <==> RequestType(req) in {Str("api"), Str("tool"), Str("report")}
    ensures c.Some? ==> (c.value.ToLeft? <==> RequestType(req) == Str("tool"))
  {
    var kind := RequestType(req);
    if kind == Str("api") then
      Some(ToRight(map["action" := Str("api_request"), "method" := Get(req, "method", Str("GET")),
                       "url" := Get(req, "url", Str("")), "data" := Get(req, "data", Dict(map[]))]))
    else if kind == Str("tool") then
      Some(ToLeft(map["action" := Str("call_tool"), "tool" := Get(req, "tool", Str("")),
                      "params" := Get(req, "params", Dict(map[]))]))
    else if kind == Str("report") then
      Some(ToRight(map["action" := Str("generate_pdf"), "report_type" := Get(req, "report_type", Str("general")),
                       "data" := Get(req, "data", Dict(map[]))]))
    else None
  }

  /** The answer of the child a call went to. */
  function Answer(c: Call, left: Child, right: Child): NodeResult {
    if c.ToLeft? then left(c.req) else right(c.req)
  }

  // ---------------------------------------------------------------------------
  // generate_report

  function AnalysisTool(reportType: Value): Value {
    Str(if reportType == Str("payment_history") then "analyze_payments" else "calculate_balance")
  }

  function PdfRequest(reportType: Value, data: Value): Request {
    map["action" := Str("generate_pdf"), "report_type" := reportType, "data" := data]
  }

  /** `generate_report` after the optional analysis: hand `payload` to the PDF
      generator, which decides success and error. */
  function RenderReport(req: Request, payload: Value, tokens: int, calls: seq<Call>, right: Child): (o: Outcome)
    ensures o.calls == calls + [ToRight(PdfRequest(Get(req, "report_type", Str("tenant_statement")), payload))]
  {
    var call := PdfRequest(Get(req, "report_type", Str("tenant_statement")), payload);
    var pdf := right(call);
    Outcome(NodeResult(pdf.success,
                       Dict(map["report" := pdf.data, "analysis_included" := Get(req, "analyze", Bool(false))]),
                       pdf.error, tokens + pdf.tokensUsed, NodeId),
            calls + [ToRight(call)])
  }

  function AnalysisRequest(req: Request): Request {
    map["action" := Str("call_tool"), "tool" := AnalysisTool(Get(req, "report_type", Str("tenant_statement"))),
        "params" := Get(req, "data", Dict(map[]))]
  }

  function GenerateReport(req: Request, left: Child, right: Child): (o: Outcome)
    ensures o.result.nodeId == NodeId
  {
    var data := Get(req, "data", Dict(map[]));
    if Truthy(Get(req, "analyze", Bool(false))) then
      var tool := left(AnalysisRequest(req));
      if !tool.success then
        RenderReport(req, data, BaseTokens + tool.tokensUsed, [ToLeft(AnalysisRequest(req))], right)
      else if data.Dict? then
        RenderReport(req, Dict(data.fields["analysis" := tool.data]), BaseTokens + tool.tokensUsed,
                     [ToLeft(AnalysisRequest(req))], right)
      else
        // `tenant_data["analysis"] = ...` raises on anything but a dictionary
        Outcome(Fault(NodeId, BaseTokens), [ToLeft(AnalysisRequest(req))])
    else
      RenderReport(req, data, BaseTokens, [], right)
  }

  // ---------------------------------------------------------------------------
  // full_pipeline

  const PipelineSteps: Value := List([Str("api_fetch"), Str("tool_process"), Str("pdf_generate")])

  function TenantId(req: Request): Value {
    Get(req, "tenant_id", Int(1))
  }

  function FetchTenant(req: Request): Request {
    map["action" := Str("api_request"), "method" := Str("GET"), "url" := Str("/api/tenants/" + Show(TenantId(req)))]
  }

  function TenantInfoRequest(req: Request): Request {
    map["action" := Str("call_tool"), "tool" := Str("get_tenant_info"), "params" := Dict(map["tenant_id" := TenantId(req)])]
  }

  /** The tenant record after the tool step: the fetched record, overlaid with
      the tool's `output` when the tool succeeded; None where the overlay raises. */
  function TenantRecord(api: Value, tool: NodeResult): (r: Option<Value>)
    ensures !tool.success ==> r == Some(api)
    ensures tool.success ==> (r.Some? <==> api.Dict? && tool.data.Dict? && Get(tool.data.fields, "output", Dict(map[])).Dict?)
  {
    if !tool.success then Some(api)
    else if tool.data.Dict? then Merge(api, Get(tool.data.fields, "output", Dict(map[])))
    else None
  }

  function FullPipeline(req: Request, left: Child, right: Child): (o: Outcome)
    ensures o.result.nodeId == NodeId
  {
    var api := right(FetchTenant(req));
    if !api.success then
      Outcome(Failure(NodeId, "API fetch failed: " + ShowError(api.error), BaseTokens + api.tokensUsed),
              [ToRight(FetchTenant(req))])
    else
      var tool := left(TenantInfoRequest(req));
      match TenantRecord(api.data, tool)
      case None =>
        Outcome(Fault(NodeId, BaseTokens + api.tokensUsed), [ToRight(FetchTenant(req)), ToLeft(TenantInfoRequest(req))])
      case Some(record) =>
        var pdfCall := PdfRequest(Get(req, "report_type", Str("tenant_statement")), record);
        var pdf := right(pdfCall);
        Outcome(NodeResult(pdf.success,
                           Dict(map["tenant_data" := record,
                                    "tool_analysis" := if tool.success then tool.data else Null,
                                    "pdf_report" := if pdf.success then pdf.data else Null,
                                    "pipeline_steps" := PipelineSteps]),
                           None, BaseTokens + api.tokensUsed + tool.tokensUsed + pdf.tokensUsed, NodeId),
                [ToRight(FetchTenant(req)), ToLeft(TenantInfoRequest(req)), ToRight(pdfCall)])
  }

  // ---------------------------------------------------------------------------
  // process

  function ToolRequest(req: Request): Request {
    var use := Get(req, "use_prompt", Null);
    if Truthy(use) then
      map["action" := Str("execute_with_prompt"), "tool" := Get(req, "tool", Str("")),
          "params" := Get(req, "params", Dict(map[])), "resource" := use,
          "variables" := Get(req, "prompt_variables", Dict(map[]))]
    else
      map["action" := Str("call_tool"), "tool" := Get(req, "tool", Str("")), "params" := Get(req, "params", Dict(map[]))]
  }

  const ListCapabilities: Request := map["action" := Str("list_capabilities")]
  const ListOutputs: Request := map["action" := Str("list_outputs")]
  const StatusRequest: Request := map["action" := Str("status")]

  /** `ApplicationManagerNode.process`; `outputStatus` is what the output
      handler's `get_status()` reports. */
  function Process(req: Request, left: Child, right: Child, outputStatus: Value): (o: Outcome)
    ensures o.result.nodeId == NodeId
  {
    var action := Action(req);
    if action == Str("process_request") then
      match Route(req)
      case None =>
        Outcome(Failure(NodeId, "Unknown request type: " + Show(RequestType(req)), BaseTokens), [])
      case Some(call) =>
        var r := Answer(call, left, right);
        Outcome(Forward(NodeId, r, BaseTokens + r.tokensUsed), [call])
    else if action == Str("generate_report") then
      GenerateReport(req, left, right)
    else if action == Str("execute_tool") then
      var r := left(ToolRequest(req));
      Outcome(Forward(NodeId, r, BaseTokens + r.tokensUsed), [ToLeft(ToolRequest(req))])
    else if action == Str("full_pipeline") then
      FullPipeline(req, left, right)
    else if action == Str("capabilities") then
      var server, outputs := left(ListCapabilities), right(ListOutputs);
      Outcome(NodeResult(true,
                         Dict(map["server" := if server.success then server.data else Dict(map[]),
                                  "outputs" := if outputs.success then outputs.data else Dict(map[])]),
                         None, BaseTokens + server.tokensUsed + outputs.tokensUsed, NodeId),
              [ToLeft(ListCapabilities), ToRight(ListOutputs)])
    else if action == Str("status") then
      var server := left(StatusRequest);
      Outcome(NodeResult(true,
                         Dict(map["application_running" := Bool(true),
                                  "server_handler" := if server.success then server.data else Dict(map[]),
                                  "output_handler" := outputStatus]),
                         None, BaseTokens + server.tokensUsed, NodeId),
              [ToLeft(StatusRequest)])
    else
      Outcome(Failure(NodeId, UnknownActionError(action), BaseTokens), [])
  }

  /** A request without an action is a status query. */
  lemma DefaultActionIsStatus(req: Request, left: Child, right: Child, outputStatus: Value)
    requires "action" !in req
    ensures Process(req, left, right, outputStatus).calls == [ToLeft(StatusRequest)]
    ensures Process(req, left, right, outputStatus).result.success
  {
  }

  /** A request makes no child call exactly when its action is unknown or it asks
      to process a request of unknown type; both fail at the base cost. */
  lemma UnknownActionRule(req: Request, left: Child, right: Child, outputStatus: Value)
    ensures Process(req, left, right, outputStatus).calls == [] <==>
              !Known(Action(req)) || (Action(req) == Str("process_request") && Route(req).None?)
    ensures !Known(Action(req)) ==>
      Process(req, left, right, outputStatus).result == Failure(NodeId, UnknownActionError(Action(req)), BaseTokens)
  {
    if Action(req) == Str("generate_report") {
      assert |GenerateReport(req, left, right).calls| >= 1;
    }
  }

  /** `process_request` sends tool requests to the server handler and API and
      report requests to the output handler, copies the answer at 25 + child
      tokens, and rejects any other request type without a call. */
  lemma ProcessRequestRule(req: Request, left: Child, right: Child, outputStatus: Value)
    requires Action(req) == Str("process_request")
    ensures var o := Process(req, left, right, outputStatus);
            && (Route(req).None? ==>
                  o == Outcome(Failure(NodeId, "Unknown request type: " + Show(RequestType(req)), BaseTokens), []))
            && (Route(req).Some? ==>
                  && |o.calls| == 1
                  && (o.calls[0].ToLeft? <==> RequestType(req) == Str("tool"))
                  && var r := Answer(o.calls[0], left, right);
                     o.result == Forward(NodeId, r, BaseTokens + r.tokensUsed))
  {
  }

  /** Without analysis, the caller's data goes straight to the PDF generator;
      with it, a successful analysis is attached under `analysis`. Either way
      the PDF generator decides success and error, and its call comes last. */
  lemma GenerateReportRule(req: Request, left: Child, right: Child, outputStatus: Value)
    requires Action(req) == Str("generate_report")
    ensures var o := Process(req, left, right, outputStatus);
            var data := Get(req, "data", Dict(map[]));
            var reportType := Get(req, "report_type", Str("tenant_statement"));
            && (!Truthy(Get(req, "analyze", Bool(false))) ==>
                  && o.calls == [ToRight(PdfRequest(reportType, data))]
                  && o.result.success == right(PdfRequest(reportType, data)).success
                  && o.result.tokensUsed == BaseTokens + right(PdfRequest(reportType, data)).tokensUsed)
            && (Truthy(Get(req, "analyze", Bool(false))) ==>
                  var tool := left(AnalysisRequest(req));
                  && o.calls[0] == ToLeft(AnalysisRequest(req))
                  && (tool.success && data.Dict? ==>
                        var payload := Dict(data.fields["analysis" := tool.data]);
                        && o.calls == [ToLeft(AnalysisRequest(req)), ToRight(PdfRequest(reportType, payload))]
                        && o.result.success == right(PdfRequest(reportType, payload)).success
                        && o.result.tokensUsed == BaseTokens + tool.tokensUsed + right(PdfRequest(reportType, payload)).tokensUsed)
                  && (!tool.success ==>
                        && o.calls == [ToLeft(AnalysisRequest(req)), ToRight(PdfRequest(reportType, data))]
                        && o.result.tokensUsed == BaseTokens + tool.tokensUsed + right(PdfRequest(reportType, data)).tokensUsed)
                  && (tool.success && !data.Dict? ==> o == Outcome(Fault(NodeId, BaseTokens), [ToLeft(AnalysisRequest(req))])))
  {
  }

  /** Payment histories are analysed with `analyze_payments`, every other report
      with `calculate_balance`. */
  lemma AnalysisToolChoice(reportType: Value)
    ensures AnalysisTool(reportType) == Str("analyze_payments") <==> reportType == Str("payment_history")
    ensures AnalysisTool(reportType) == Str("calculate_balance") <==> reportType != Str("payment_history")
  {
  }

  /** `execute_tool` renders a prompt first exactly when `use_prompt` is truthy,
      and copies the server handler's answer at 25 + its tokens. */
  lemma ExecuteToolRule(req: Request, left: Child, right: Child, outputStatus: Value)
    requires Action(req) == Str("execute_tool")
    ensures var o := Process(req, left, right, outputStatus);
            && |o.calls| == 1 && o.calls[0].ToLeft?
            && (o.calls[0].req["action"] == Str("execute_with_prompt") <==> Truthy(Get(req, "use_prompt", Null)))
            && (o.calls[0].req["action"] == Str("call_tool") <==> !Truthy(Get(req, "use_prompt", Null)))
            && var r := left(o.calls[0].req);
               o.result == Forward(NodeId, r, BaseTokens + r.tokensUsed)
  {
  }

  /** `full_pipeline` is fail-fast on the fetch: nothing else is called and the
      cost is 25 + fetch. */
  lemma PipelineFetchFailure(req: Request, left: Child, right: Child, outputStatus: Value)
    requires Action(req) == Str("full_pipeline")
    requires !right(FetchTenant(req)).success
    ensures var o := Process(req, left, right, outputStatus);
            && o.calls == [ToRight(FetchTenant(req))]
            && !o.result.success
            && o.result.tokensUsed == BaseTokens + right(FetchTenant(req)).tokensUsed
  {
  }

  /** After a successful fetch the three steps run in order (fetch, tool, PDF);
      the PDF generator decides success and the cost is the sum of all three. */
  lemma PipelineRunsInOrder(req: Request, left: Child, right: Child, outputStatus: Value)
    requires Action(req) == Str("full_pipeline")
    requires right(FetchTenant(req)).success
    requires TenantRecord(right(FetchTenant(req)).data, left(TenantInfoRequest(req))).Some?
    ensures var o := Process(req, left, right, outputStatus);
            var api, tool := right(FetchTenant(req)), left(TenantInfoRequest(req));
            var record := TenantRecord(api.data, tool).value;
            var pdf := right(PdfRequest(Get(req, "report_type", Str("tenant_statement")), record));
            && |o.calls| == 3
            && o.calls[0] == ToRight(FetchTenant(req)) && o.calls[1] == ToLeft(TenantInfoRequest(req))
            && o.calls[2] == ToRight(PdfRequest(Get(req, "report_type", Str("tenant_statement")), record))
            && o.result.success == pdf.success && o.result.error == None
            && o.result.data.fields["tenant_data"] == record
            && o.result.tokensUsed == BaseTokens + api.tokensUsed + tool.tokensUsed + pdf.tokensUsed
  {
  }

  /** In the tenant record handed to the PDF generator, a field the tool reports
      in its `output` replaces the fetched one, and every other fetched field is kept. */
  lemma PipelineToolOverridesFetch(api: Value, tool: NodeResult, k: string)
    requires tool.success && TenantRecord(api, tool).Some?
    ensures var output := Get(tool.data.fields, "output", Dict(map[]));
            var record := TenantRecord(api, tool).value;
            && record.Dict?
            && (k in output.fields ==> k in record.fields && record.fields[k] == output.fields[k])
            && (k in api.fields && k !in output.fields ==> k in record.fields && record.fields[k] == api.fields[k])
            && (k in record.fields ==> k in api.fields || k in output.fields)
  {
    MergeLookup(api, Get(tool.data.fields, "output", Dict(map[])), k);
  }

  /** `capabilities` and `status` always succeed; a failed child's payload is
      replaced by an empty dictionary. */
  lemma CapabilitiesAndStatusRule(req: Request, left: Child, right: Child, outputStatus: Value)
    requires Action(req) == Str("capabilities") || Action(req) == Str("status")
    ensures var o := Process(req, left, right, outputStatus);
            && o.result.success
            && (Action(req) == Str("capabilities") ==>
                  && o.calls == [ToLeft(ListCapabilities), ToRight(ListOutputs)]
                  && (!left(ListCapabilities).success ==> o.result.data.fields["server"] == Dict(map[]))
                  && (!right(ListOutputs).success ==> o.result.data.fields["outputs"] == Dict(map[]))
                  && o.result.tokensUsed == BaseTokens + left(ListCapabilities).tokensUsed + right(ListOutputs).tokensUsed)
            && (Action(req) == Str("status") ==>
                  && o.calls == [ToLeft(StatusRequest)]
                  && o.result.data.fields["output_handler"] == outputStatus
                  && o.result.tokensUsed == BaseTokens + left(StatusRequest).tokensUsed)
  {
  }

  /** With children that never report negative costs, every answer costs at
      least the base cost. */
  lemma CostCoversBase(req: Request, left: Child, right: Child, outputStatus: Value)
    requires NonNegativeTokens(left) && NonNegativeTokens(right)
    ensures Process(req, left, right, outputStatus).result.tokensUsed >= BaseTokens
  {
    var action := Action(req);
    if action == Str("process_request") {
      ProcessRequestRule(req, left, right, outputStatus);
    } else if action == Str("generate_report") {
      GenerateReportRule(req, left, right, outputStatus);
    } else if action == Str("execute_tool") {
      ExecuteToolRule(req, left, right, outputStatus);
    } else if action == Str("full_pipeline") {
      if !right(FetchTenant(req)).success {
        PipelineFetchFailure(req, left, right, outputStatus);
      } else if TenantRecord(right(FetchTenant(req)).data, left(TenantInfoRequest(req))).Some? {
        PipelineRunsInOrder(req, left, right, outputStatus);
      }
    } else if action == Str("capabilities") || action == Str("status") {
      CapabilitiesAndStatusRule(req, left, right, outputStatus);
    } else {
      UnknownActionRule(req, left, right, outputStatus);
    }
  }
}
