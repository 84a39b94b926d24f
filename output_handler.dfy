/** M220, the output handler: coordinates the web API leaf (left, M221) and the
    PDF generator leaf (right, M222). */
module OutputHandler {
  import opened Values
  import opened Results

  const NodeId := "M220"

  /** Cost charged by this node itself on every request. */
  const BaseTokens := 10

  /** `input_data.get("action", "api_request")`. */
  function Action(req: Request): Value {
    Get(req, "action", Str("api_request"))
  }

  predicate Known(action: Value) {
    action in {Str("api_request"), Str("generate_pdf"), Str("fetch_and_report"), Str("multi_output"), Str("list_outputs")}
  }

  function FetchRequest(req: Request): Request {
    map["method" := Str("GET"), "url" := Get(req, "url", Str("/api/tenants"))]
  }

  /** What `fetch_and_report` hands the PDF generator: a list payload wrapped as
      `tenants` for a balance summary or `payments` for a payment history, any
      other payload replaced by an empty list there; other report types get the
      payload unchanged. */
  function ReportPayload(reportType: Value, payload: Value): (r: Value)
    ensures reportType == Str("balance_summary") ==>
      r == Dict(map["tenants" := if payload.List? then payload else List([])])
    ensures reportType == Str("payment_history") ==>
      r == Dict(map["payments" := if payload.List? then payload else List([])])
    ensures reportType != Str("balance_summary") && reportType != Str("payment_history") ==> r == payload
  {
    if reportType == Str("balance_summary") then
      Dict(map["tenants" := if payload.List? then payload else List([])])
    else if reportType == Str("payment_history") then
      Dict(map["payments" := if payload.List? then payload else List([])])
    else payload
  }

  const ApiEndpoints: Value := List([Str("/api/tenants"), Str("/api/payments"), Str("/api/reports")])

  /** `OutputHandlerNode.process`. No statement inside its `try` can raise once
      the request is a dictionary and the children answer. */
  function Process(req: Request, left: Child, right: Child): (o: Outcome)
    ensures o.result.nodeId == NodeId
  {
    var action := Action(req);
    if action == Str("api_request") then
      var call := map["method" := Get(req, "method", Str("GET")), "url" := Get(req, "url", Str("")),
                      "data" := Get(req, "data", Dict(map[])), "headers" := Get(req, "headers", Dict(map[]))];
      var result := left(call);
      Outcome(Forward(NodeId, result, BaseTokens + result.tokensUsed), [ToLeft(call)])
    else if action == Str("generate_pdf") then
      var call := map["action" := Str("generate"), "report_type" := Get(req, "report_type", Str("general")),
                      "data" := Get(req, "data", Dict(map[])), "output_path" := Get(req, "output_path", Null)];
      var result := right(call);
      Outcome(Forward(NodeId, result, BaseTokens + result.tokensUsed), [ToRight(call)])
    else if action == Str("fetch_and_report") then
      var api := left(FetchRequest(req));
      if !api.success then
        Outcome(Failure(NodeId, "API fetch failed: " + ShowError(api.error), BaseTokens + api.tokensUsed),
                [ToLeft(FetchRequest(req))])
      else
        var reportType := Get(req, "report_type", Str("balance_summary"));
        var call := map["action" := Str("generate"), "report_type" := reportType,
                        "data" := ReportPayload(reportType, api.data)];
        var pdf := right(call);
        Outcome(NodeResult(pdf.success, Dict(map["api_data" := api.data, "pdf_info" := pdf.data]), pdf.error,
                           BaseTokens + api.tokensUsed + pdf.tokensUsed, NodeId),
                [ToLeft(FetchRequest(req)), ToRight(call)])
    else if action == Str("multi_output") then
      var reportType := Get(req, "report_type", Str("tenant_statement"));
      var post := map["method" := Str("POST"), "url" := Str("/api/reports"),
                      "data" := Dict(map["type" := reportType, "status" := Str("generating")])];
      var call := map["action" := Str("generate"), "report_type" := reportType,
                      "data" := Get(req, "data", Dict(map[]))];
      var api, pdf := left(post), right(call);
      Outcome(NodeResult(api.success && pdf.success,
                         Dict(map["api_notification" := api.data, "pdf_generated" := pdf.data,
                                  "outputs" := List([Str("api"), Str("pdf")])]),
                         None, BaseTokens + api.tokensUsed + pdf.tokensUsed, NodeId),
              [ToLeft(post), ToRight(call)])
    else if action == Str("list_outputs") then
      var list := map["action" := Str("list")];
      var pdfs := right(list);
      Outcome(NodeResult(true,
                         Dict(map["pdf_documents" := if pdfs.success then pdfs.data else List([]),
                                  "api_endpoints" := ApiEndpoints]),
                         None, BaseTokens + pdfs.tokensUsed, NodeId),
              [ToRight(list)])
    else
      Outcome(Failure(NodeId, UnknownActionError(action), BaseTokens), [])
  }

  /** A request without an action is handled as `api_request`. */
  lemma DefaultActionIsApiRequest(req: Request, left: Child, right: Child)
    requires "action" !in req
    ensures Process(req, left, right) == Process(req["action" := Str("api_request")], left, right)
  {
    var req2 := req["action" := Str("api_request")];
    assert Get(req2, "method", Str("GET")) == Get(req, "method", Str("GET"));
    assert Get(req2, "url", Str("")) == Get(req, "url", Str(""));
    assert Get(req2, "data", Dict(map[])) == Get(req, "data", Dict(map[]));
    assert Get(req2, "headers", Dict(map[])) == Get(req, "headers", Dict(map[]));
  }

  /** A request makes no child call exactly when its action is unknown, and then
      it fails with the "Unknown action" message at the base cost. */
  lemma UnknownActionRule(req: Request, left: Child, right: Child)
    ensures Process(req, left, right).calls == [] <==> !Known(Action(req))
    ensures !Known(Action(req)) ==>
      Process(req, left, right).result == Failure(NodeId, UnknownActionError(Action(req)), BaseTokens)
  {
  }

  /** `api_request` goes to the web leaf and `generate_pdf` to the PDF leaf; either
      way the leaf's answer is copied at 10 + leaf tokens. */
  lemma SingleLeafRules(req: Request, left: Child, right: Child)
    requires Action(req) == Str("api_request") || Action(req) == Str("generate_pdf")
    ensures var o := Process(req, left, right);
            && |o.calls| == 1
            && (o.calls[0].ToLeft? <==> Action(req) == Str("api_request"))
            && var r := if o.calls[0].ToLeft? then left(o.calls[0].req) else right(o.calls[0].req);
               o.result == Forward(NodeId, r, BaseTokens + r.tokensUsed)
  {
  }

  /** `fetch_and_report` is fail-fast: a failed fetch ends the request before any
      PDF is generated, at 10 + fetch tokens. */
  lemma FetchFailureShortCircuits(req: Request, left: Child, right: Child)
    requires Action(req) == Str("fetch_and_report")
    requires !left(FetchRequest(req)).success
    ensures var api := left(FetchRequest(req));
            Process(req, left, right) ==
              Outcome(Failure(NodeId, "API fetch failed: " + ShowError(api.error), BaseTokens + api.tokensUsed),
                      [ToLeft(FetchRequest(req))])
  {
  }

  /** After a successful fetch the PDF leaf decides success and receives the
      reshaped payload; the cost is 10 + fetch + pdf. */
  lemma FetchThenReport(req: Request, left: Child, right: Child)
    requires Action(req) == Str("fetch_and_report")
    requires left(FetchRequest(req)).success
    ensures var o := Process(req, left, right);
            var api := left(FetchRequest(req));
            && |o.calls| == 2 && o.calls[0] == ToLeft(FetchRequest(req)) && o.calls[1].ToRight?
            && o.calls[1].req["data"] == ReportPayload(Get(req, "report_type", Str("balance_summary")), api.data)
            && var pdf := right(o.calls[1].req);
               && o.result.success == pdf.success && o.result.error == pdf.error
               && o.result.tokensUsed == BaseTokens + api.tokensUsed + pdf.tokensUsed
  {
  }

  /** `multi_output` always calls both leaves and succeeds exactly when both do;
      `list_outputs` always succeeds at 10 + list tokens. */
  lemma MultiAndListRules(req: Request, left: Child, right: Child)
    requires Action(req) == Str("multi_output") || Action(req) == Str("list_outputs")
    ensures var o := Process(req, left, right);
            && (Action(req) == Str("multi_output") ==>
                  && |o.calls| == 2 && o.calls[0].ToLeft? && o.calls[1].ToRight?
                  && var a, p := left(o.calls[0].req), right(o.calls[1].req);
                     && (o.result.success <==> a.success && p.success)
                     && o.result.tokensUsed == BaseTokens + a.tokensUsed + p.tokensUsed)
            && (Action(req) == Str("list_outputs") ==>
                  && o.calls == [ToRight(map["action" := Str("list")])]
                  && o.result.success
                  && o.result.tokensUsed == BaseTokens + right(map["action" := Str("list")]).tokensUsed)
  {
  }

  /** A report payload that is a list is passed on whole; one that is not never
      reaches a summary or history report. */
  lemma ReportPayloadKeepsLists(reportType: Value, payload: Value)
    requires reportType == Str("balance_summary") || reportType == Str("payment_history")
    ensures ReportPayload(reportType, payload).Dict?
    ensures |ReportPayload(reportType, payload).fields| == 1
    ensures var inner := if reportType == Str("balance_summary") then "tenants" else "payments";
            inner in ReportPayload(reportType, payload).fields
            && ReportPayload(reportType, payload).fields[inner].List?
            && (payload.List? ==> ReportPayload(reportType, payload).fields[inner] == payload)
  {
  }

  /** With children that never report negative costs, every answer costs at
      least the base cost. */
  lemma CostCoversBase(req: Request, left: Child, right: Child)
    requires NonNegativeTokens(left) && NonNegativeTokens(right)
    ensures Process(req, left, right).result.tokensUsed >= BaseTokens
  {
    var action := Action(req);
    if action == Str("fetch_and_report") {
      if left(FetchRequest(req)).success {
        FetchThenReport(req, left, right);
      } else {
        FetchFailureShortCircuits(req, left, right);
      }
    } else if action == Str("multi_output") || action == Str("list_outputs") {
      MultiAndListRules(req, left, right);
    } else if action == Str("api_request") || action == Str("generate_pdf") {
      SingleLeafRules(req, left, right);
    } else {
      UnknownActionRule(req, left, right);
    }
  }
}
