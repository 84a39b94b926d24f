/** M120, the database handler: coordinates the Excel leaf (left, M121) and the
    SQL database leaf (right, M122). */
module DatabaseHandler {
  import opened Values
  import opened Results

  const NodeId := "M120"

  /** Cost charged by this node itself on every request. */
  const BaseTokens := 10

  /** Cost charged per row handed to the database by `import_excel`, and for the
      database write of `add_tenant`. */
  const RowTokens := 20

  /** `input_data.get("action", "get_tenants")`. */
  function Action(req: Request): Value {
    Get(req, "action", Str("get_tenants"))
  }

  /** `input_data.get("source", "database")`. */
  function Source(req: Request): Value {
    Get(req, "source", Str("database"))
  }

  predicate Known(action: Value) {
    action in {Str("get_tenants"), Str("add_tenant"), Str("import_excel"), Str("export_excel"), Str("sync"), Str("query")}
  }

  const SheetRequest: Request := map["action" := Str("get_sheet"), "path" := Str("tenants.xlsx")]
  const TenantsRequest: Request := map["action" := Str("get_tenants")]

  function AddTenantRequest(row: Value): Request {
    map["action" := Str("add_tenant"), "data" := row]
  }

  // ---------------------------------------------------------------------------
  // import_excel

  /** The items `for row in data` visits: a list's items, a string's characters,
      a dictionary's keys and a set's elements, the last two in the iteration order
      given; None where Python raises because the payload is not iterable. */
  function Rows(data: Value, order: IterationOrder): (rows: Option<seq<Value>>)
    ensures rows.None? <==> data.Null? || data.Bool? || data.Int?
    ensures data.List? ==> rows == Some(data.items)
  {
    match data
    case List(items) => Some(items)
    case Str(s) => Some(seq(|s|, k requires 0 <= k < |s| => Str([s[k]])))
    case Dict(_) => Some(order(data))
    case Set(_) => Some(order(data))
    case _ => None
  }

  /** Iterating visits as many rows as `len` counts, provided the order names a
      dictionary's keys or a set's elements once each; and then every key or
      element is among them. */
  lemma RowsCountLen(data: Value, order: IterationOrder)
    requires IteratesOnce(order, data)
    ensures Rows(data, order).Some? <==> Len(data).Some?
    ensures Rows(data, order).Some? ==> |Rows(data, order).value| == Len(data).value
    ensures data.Dict? ==> forall k :: k in data.fields ==> Str(k) in Rows(data, order).value
    ensures data.Set? ==> forall x :: x in data.elems ==> x in Rows(data, order).value
  {
    match data
    case Dict(fields) =>
      ListsOnceLength(order(data), KeyValues(fields));
      KeyValuesCount(fields);
      assert forall k :: k in fields ==> Str(k) in KeyValues(fields);
    case Set(elems) =>
      ListsOnceLength(order(data), elems);
    case _ =>
  }

  /** The database calls `import_excel` makes, one per row, in row order. */
  function AddTenantCalls(rows: seq<Value>): (calls: seq<Call>)
    ensures |calls| == |rows|
    ensures forall k :: 0 <= k < |rows| ==> calls[k] == ToRight(AddTenantRequest(rows[k]))
  {
    seq(|rows|, k requires 0 <= k < |rows| => ToRight(AddTenantRequest(rows[k])))
  }

  /** The loop of `import_excel`: hand every row to the database, whatever it
      answers, and count the rows handed over. */
  method ImportRows(rows: seq<Value>) returns (imported: nat, calls: seq<Call>)
    ensures imported == |rows|
    ensures calls == AddTenantCalls(rows)
  {
    imported, calls := 0, [];
    var i := 0;
    while i < |rows|
      invariant 0 <= i <= |rows|
      invariant imported == i
      invariant calls == AddTenantCalls(rows[..i])
    {
      calls := calls + [ToRight(AddTenantRequest(rows[i]))];
      imported := imported + 1;
      i := i + 1;
    }
    assert rows[..i] == rows;
  }

  /** The sheet read `import_excel` starts with. */
  function SheetRead(req: Request): Request {
    map["action" := Str("get_sheet"), "path" := Get(req, "path", Str("tenants.xlsx"))]
  }

  /** `import_excel` as a whole: a failed read ends the request; a payload that
      cannot be iterated raises before anything is charged beyond the base; otherwise
      every row is handed to the database and the request succeeds. */
  function ImportExcel(req: Request, left: Child, order: IterationOrder): (o: Outcome)
    ensures o.result.nodeId == NodeId
  {
    var path := Get(req, "path", Str("tenants.xlsx"));
    var read := SheetRead(req);
    var excel := left(read);
    if !excel.success then
      Outcome(Failure(NodeId, "Failed to read Excel: " + ShowError(excel.error), BaseTokens + excel.tokensUsed),
              [ToLeft(read)])
    else
      match Rows(excel.data, order)
      case None => Outcome(Fault(NodeId, BaseTokens), [ToLeft(read)])
      case Some(rows) =>
        Outcome(NodeResult(true, Dict(map["imported" := Int(|rows|), "source" := path]), None,
                           BaseTokens + excel.tokensUsed + |rows| * RowTokens, NodeId),
                [ToLeft(read)] + AddTenantCalls(rows))
  }

  /** The import path of `DatabaseHandlerNode.process`, with its loop. */
  method ImportExcelSteps(req: Request, left: Child, order: IterationOrder) returns (o: Outcome)
    ensures o == ImportExcel(req, left, order)
  {
    var path := Get(req, "path", Str("tenants.xlsx"));
    var read := SheetRead(req);
    var excel := left(read);
    if !excel.success {
      return Outcome(Failure(NodeId, "Failed to read Excel: " + ShowError(excel.error), BaseTokens + excel.tokensUsed),
                     [ToLeft(read)]);
    }
    var rows := Rows(excel.data, order);
    if rows.None? {
      return Outcome(Fault(NodeId, BaseTokens), [ToLeft(read)]);
    }
    var imported, calls := ImportRows(rows.value);
    o := Outcome(NodeResult(true, Dict(map["imported" := Int(imported), "source" := path]), None,
                            BaseTokens + excel.tokensUsed + imported * RowTokens, NodeId),
                 [ToLeft(read)] + calls);
  }

  // ---------------------------------------------------------------------------
  // sync

  /** `{t.get("id") for t in (data or [])}`; None where Python raises: a row
      without `get` (anything but a dictionary) or an id that cannot be a set
      member. */
  function IdSet(data: Value): (ids: Option<set<Value>>)
    ensures !Truthy(data) ==> ids == Some({})
    ensures ids.Some? ==> forall id :: id in ids.value ==> Hashable(id)
  {
    if !Truthy(data) then Some({})
    else match data
      case List(items) =>
        if forall k :: 0 <= k < |items| ==> items[k].Dict? && Hashable(Get(items[k].fields, "id", Null)) then
          Some(set k | 0 <= k < |items| :: Get(items[k].fields, "id", Null))
        else None
      case _ => None
  }

  /** The payload `sync` reports for two id sets. */
  function SyncReport(excel: set<Value>, db: set<Value>): Value {
    Dict(map["excel_count" := Int(|excel|), "database_count" := Int(|db|), "in_sync" := Bool(excel == db),
             "only_in_excel" := Set(excel - db), "only_in_db" := Set(db - excel)])
  }

  /** The two sides are reported in sync exactly when neither has an id the other lacks. */
  lemma InSyncIffNoDifferences(excel: set<Value>, db: set<Value>)
    ensures SyncReport(excel, db).fields["in_sync"] == Bool(true) <==>
            SyncReport(excel, db).fields["only_in_excel"] == Set({}) && SyncReport(excel, db).fields["only_in_db"] == Set({})
  {
    if excel - db == {} && db - excel == {} {
      assert forall x :: x in excel <==> x in db by {
        forall x ensures x in excel <==> x in db {
          if x in excel { assert x !in excel - db; }
          if x in db { assert x !in db - excel; }
        }
      }
    }
  }

  /** The counts are the numbers of distinct ids, and the ids on each side are
      split exactly into those shared and those only on that side. */
  lemma SyncCountsPartition(excel: set<Value>, db: set<Value>)
    ensures SyncReport(excel, db).fields["excel_count"] == Int(|excel - db| + |excel * db|)
    ensures SyncReport(excel, db).fields["database_count"] == Int(|db - excel| + |excel * db|)
  {
    assert excel == (excel - db) + (excel * db);
    assert db == (db - excel) + (excel * db);
  }

  // ---------------------------------------------------------------------------
  // process

  /** `DatabaseHandlerNode.process`; `import_excel` is `ImportExcel`. */
  function Process(req: Request, left: Child, right: Child, order: IterationOrder): (o: Outcome)
    ensures o.result.nodeId == NodeId
  {
    var action := Action(req);
    var source := Source(req);
    if action == Str("get_tenants") then
      if source == Str("excel") then
        var r := left(SheetRequest);
        Outcome(Forward(NodeId, r, BaseTokens + r.tokensUsed), [ToLeft(SheetRequest)])
      else if source == Str("database") then
        var r := right(TenantsRequest);
        Outcome(Forward(NodeId, r, BaseTokens + r.tokensUsed), [ToRight(TenantsRequest)])
      else
        var excel, db := left(SheetRequest), right(TenantsRequest);
        Outcome(NodeResult(excel.success || db.success,
                           Dict(map["excel" := if excel.success then excel.data else List([]),
                                    "database" := if db.success then db.data else List([])]),
                           None, BaseTokens + excel.tokensUsed + db.tokensUsed, NodeId),
                [ToLeft(SheetRequest), ToRight(TenantsRequest)])
    else if action == Str("add_tenant") then
      var row := Get(req, "data", Dict(map[]));
      var db := right(AddTenantRequest(row));
      var mirror := if Truthy(Get(req, "sync_excel", Bool(true)))
                    then [ToLeft(map["action" := Str("add_row"), "path" := Str("tenants.xlsx"), "data" := row])]
                    else [];
      Outcome(NodeResult(db.success, db.data, None, BaseTokens + db.tokensUsed + RowTokens, NodeId),
              [ToRight(AddTenantRequest(row))] + mirror)
    else if action == Str("import_excel") then
      ImportExcel(req, left, order)
    else if action == Str("export_excel") then
      var db := right(TenantsRequest);
      if !db.success then
        Outcome(Failure(NodeId, "Failed to query database: " + ShowError(db.error), BaseTokens + db.tokensUsed),
                [ToRight(TenantsRequest)])
      else
        var path := Get(req, "path", Str("export.xlsx"));
        var write := map["action" := Str("write"), "path" := path, "data" := Dict(map["Sheet1" := db.data])];
        var excel := left(write);
        var tokens := BaseTokens + db.tokensUsed + excel.tokensUsed;
        match Len(db.data)
        case None => Outcome(Fault(NodeId, tokens), [ToRight(TenantsRequest), ToLeft(write)])
        case Some(n) =>
          Outcome(NodeResult(excel.success, Dict(map["exported" := Int(n), "path" := path]), None, tokens, NodeId),
                  [ToRight(TenantsRequest), ToLeft(write)])
    else if action == Str("sync") then
      var excel, db := left(SheetRequest), right(TenantsRequest);
      var calls := [ToLeft(SheetRequest), ToRight(TenantsRequest)];
      match (IdSet(excel.data), IdSet(db.data))
      case (Some(e), Some(d)) =>
        Outcome(NodeResult(true, SyncReport(e, d), None, BaseTokens + excel.tokensUsed + db.tokensUsed, NodeId), calls)
      case _ => Outcome(Fault(NodeId, BaseTokens), calls)
    else if action == Str("query") then
      var query := map["action" := Str("query"), "sql" := Get(req, "sql", Str("")),
                       "params" := Get(req, "params", Dict(map[]))];
      var r := right(query);
      Outcome(Forward(NodeId, r, BaseTokens + r.tokensUsed), [ToRight(query)])
    else
      Outcome(Failure(NodeId, UnknownActionError(action), BaseTokens), [])
  }

  /** A request without an action is handled as `get_tenants`, and one without a
      source reads the database. */
  lemma DefaultsAreGetTenantsFromDatabase(req: Request, left: Child, right: Child, order: IterationOrder)
    requires "action" !in req && "source" !in req
    ensures Process(req, left, right, order) == Process(req["action" := Str("get_tenants")], left, right, order)
    ensures Process(req, left, right, order) ==
      Outcome(Forward(NodeId, right(TenantsRequest), BaseTokens + right(TenantsRequest).tokensUsed), [ToRight(TenantsRequest)])
  {
  }

  /** A request makes no child call exactly when its action is unknown, and then
      it fails with the "Unknown action" message at the base cost. */
  lemma UnknownActionRule(req: Request, left: Child, right: Child, order: IterationOrder)
    ensures Process(req, left, right, order).calls == [] <==> !Known(Action(req))
    ensures !Known(Action(req)) ==>
      Process(req, left, right, order).result == Failure(NodeId, UnknownActionError(Action(req)), BaseTokens)
  {
    if Action(req) == Str("import_excel") {
      assert |ImportExcel(req, left, order).calls| >= 1;
    }
  }

  /** `get_tenants` reads Excel for "excel", the database for "database", and both
      for any other source; reading both succeeds when either side does, replaces a
      failed side's data by an empty list, and charges both sides. */
  lemma GetTenantsRouting(req: Request, left: Child, right: Child, order: IterationOrder)
    requires Action(req) == Str("get_tenants")
    ensures var o := Process(req, left, right, order);
            && (Source(req) == Str("excel") ==>
                  && o.calls == [ToLeft(SheetRequest)]
                  && o.result == Forward(NodeId, left(SheetRequest), BaseTokens + left(SheetRequest).tokensUsed))
            && (Source(req) == Str("database") ==>
                  && o.calls == [ToRight(TenantsRequest)]
                  && o.result == Forward(NodeId, right(TenantsRequest), BaseTokens + right(TenantsRequest).tokensUsed))
            && (Source(req) != Str("excel") && Source(req) != Str("database") ==>
                  var excel, db := left(SheetRequest), right(TenantsRequest);
                  && o.calls == [ToLeft(SheetRequest), ToRight(TenantsRequest)]
                  && (o.result.success <==> excel.success || db.success)
                  && (!excel.success ==> o.result.data.fields["excel"] == List([]))
                  && (!db.success ==> o.result.data.fields["database"] == List([]))
                  && o.result.tokensUsed == BaseTokens + excel.tokensUsed + db.tokensUsed)
  {
  }

  /** `add_tenant` always writes to the database and mirrors the row to Excel
      exactly when `sync_excel` is truthy (it is by default); the database decides
      success and the cost is 10 + db + 20. */
  lemma AddTenantRule(req: Request, left: Child, right: Child, order: IterationOrder)
    requires Action(req) == Str("add_tenant")
    ensures var o := Process(req, left, right, order);
            var db := right(AddTenantRequest(Get(req, "data", Dict(map[]))));
            && o.calls[0] == ToRight(AddTenantRequest(Get(req, "data", Dict(map[]))))
            && (|o.calls| == 2 <==> Truthy(Get(req, "sync_excel", Bool(true))))
            && |o.calls| <= 2
            && o.result.success == db.success
            && o.result.tokensUsed == BaseTokens + db.tokensUsed + RowTokens
  {
  }

  /** `import_excel` succeeds exactly when the sheet was read and its payload can be
      iterated; then every row was handed to the database in order, `imported`
      is the number of rows, and the cost is 10 + read + 20 per row. */
  lemma ImportExcelRule(req: Request, left: Child, right: Child, order: IterationOrder)
    requires Action(req) == Str("import_excel")
    ensures var o := Process(req, left, right, order);
            var excel := left(o.calls[0].req);
            && o.calls[0].ToLeft?
            && (o.result.success <==> excel.success && Rows(excel.data, order).Some?)
            && (o.result.success ==>
                  var rows := Rows(excel.data, order).value;
                  && o.calls[1..] == AddTenantCalls(rows)
                  && o.result.data.fields["imported"] == Int(|rows|)
                  && o.result.tokensUsed == BaseTokens + excel.tokensUsed + |rows| * RowTokens)
            && (!excel.success ==> |o.calls| == 1 && o.result.tokensUsed == BaseTokens + excel.tokensUsed)
            && (excel.success && Rows(excel.data, order).None? ==> o.result == Fault(NodeId, BaseTokens))
  {
  }

  /** When the iteration order visits each key or element once, importing a sheet
      that was read imports exactly `len` of its payload: one row per list item,
      character, dictionary key or set element, each handed to the database, at
      20 tokens a row. */
  lemma ImportExcelCountsLen(req: Request, left: Child, right: Child, order: IterationOrder)
    requires Action(req) == Str("import_excel")
    requires left(SheetRead(req)).success && IteratesOnce(order, left(SheetRead(req)).data)
    ensures var excel, o := left(SheetRead(req)), Process(req, left, right, order);
            && (o.result.success <==> Len(excel.data).Some?)
            && (Len(excel.data).Some? ==>
                  && |o.calls| == 1 + Len(excel.data).value
                  && o.result.data.fields["imported"] == Int(Len(excel.data).value)
                  && o.result.tokensUsed == BaseTokens + excel.tokensUsed + Len(excel.data).value * RowTokens)
  {
    RowsCountLen(left(SheetRead(req)).data, order);
    ImportExcelRule(req, left, right, order);
  }

  /** `export_excel` is fail-fast on the database read; after it, Excel decides
      success and `exported` is the length of what the database returned. */
  lemma ExportExcelRule(req: Request, left: Child, right: Child, order: IterationOrder)
    requires Action(req) == Str("export_excel")
    ensures var o := Process(req, left, right, order);
            var db := right(TenantsRequest);
            && o.calls[0] == ToRight(TenantsRequest)
            && (!db.success ==> |o.calls| == 1 && !o.result.success && o.result.tokensUsed == BaseTokens + db.tokensUsed)
            && (db.success ==>
                  && |o.calls| == 2 && o.calls[1].ToLeft?
                  && o.result.tokensUsed == BaseTokens + db.tokensUsed + left(o.calls[1].req).tokensUsed
                  && (Len(db.data).Some? ==>
                        && o.result.success == left(o.calls[1].req).success
                        && o.result.data.fields["exported"] == Int(Len(db.data).value))
                  && (Len(db.data).None? ==> !o.result.success))
  {
  }

  /** `sync` succeeds whenever both payloads yield id sets, and then reports
      exactly the two sets' sizes, whether they are equal and their two differences. */
  lemma SyncRule(req: Request, left: Child, right: Child, order: IterationOrder)
    requires Action(req) == Str("sync")
    ensures var o := Process(req, left, right, order);
            var e, d := IdSet(left(SheetRequest).data), IdSet(right(TenantsRequest).data);
            && o.calls == [ToLeft(SheetRequest), ToRight(TenantsRequest)]
            && (o.result.success <==> e.Some? && d.Some?)
            && (e.Some? && d.Some? ==>
                  && o.result.data == SyncReport(e.value, d.value)
                  && o.result.tokensUsed == BaseTokens + left(SheetRequest).tokensUsed + right(TenantsRequest).tokensUsed)
            && (e.None? || d.None? ==> o.result == Fault(NodeId, BaseTokens))
  {
  }

  /** `query` hands the SQL text (empty by default) and its parameters to the
      database and copies its answer at 10 + db tokens. */
  lemma QueryRule(req: Request, left: Child, right: Child, order: IterationOrder)
    requires Action(req) == Str("query")
    ensures var o := Process(req, left, right, order);
            && |o.calls| == 1 && o.calls[0].ToRight?
            && o.calls[0].req["sql"] == Get(req, "sql", Str(""))
            && var r := right(o.calls[0].req);
               o.result == Forward(NodeId, r, BaseTokens + r.tokensUsed)
  {
  }

  /** With children that never report negative costs, every answer costs at
      least the base cost. */
  lemma CostCoversBase(req: Request, left: Child, right: Child, order: IterationOrder)
    requires NonNegativeTokens(left) && NonNegativeTokens(right)
    ensures Process(req, left, right, order).result.tokensUsed >= BaseTokens
  {
    var action := Action(req);
    if action == Str("get_tenants") {
      GetTenantsRouting(req, left, right, order);
    } else if action == Str("add_tenant") {
      AddTenantRule(req, left, right, order);
    } else if action == Str("import_excel") {
      ImportExcelRule(req, left, right, order);
    } else if action == Str("export_excel") {
      ExportExcelRule(req, left, right, order);
    } else if action == Str("sync") {
      SyncRule(req, left, right, order);
    } else if action == Str("query") {
      QueryRule(req, left, right, order);
    } else {
      UnknownActionRule(req, left, right, order);
    }
  }
}
