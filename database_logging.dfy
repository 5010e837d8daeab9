/**
 * The audit-log middlewares of src/libs/middleware/databaseLogging.ts: each
 * request that returns a response leaves one row in the log collection, with
 * a level derived from the status and a record of what was requested; a
 * request whose handler throws leaves no row and the error goes on up.
 */
module DatabaseLogging {
  import opened Wrappers
  import opened JsText
  import opened JsValues

  // ---------------------------------------------------------------------------
  // Action and level
  // ---------------------------------------------------------------------------

  /** `context.params?.id` is truthy: present and not empty. */
  predicate HasId(idParam: Option<string>) {
    idParam.Some? && idParam.value != ""
  }

  /** The action `withCRUDDatabaseLogging` derives from the HTTP method. */
  function ActionFor(httpMethod: string, idParam: Option<string>): (action: string)
    ensures action == "read" <==> httpMethod == "GET" && HasId(idParam)
    ensures action == "list" <==> httpMethod == "GET" && !HasId(idParam)
    ensures action == "create" <==> httpMethod == "POST"
    ensures action == "update" <==> httpMethod == "PUT" || httpMethod == "PATCH"
    ensures action == "delete" <==> httpMethod == "DELETE"
    ensures action == "unknown" <==> httpMethod !in {"GET", "POST", "PUT", "PATCH", "DELETE"}
  {
    match httpMethod
    case "GET" => if HasId(idParam) then "read" else "list"
    case "POST" => "create"
    case "PUT" => "update"
    case "PATCH" => "update"
    case "DELETE" => "delete"
    case _ => "unknown"
  }

  datatype Level = InfoLevel | WarningLevel | ErrorLevel

  function Severity(l: Level): nat {
    match l
    case InfoLevel => 0
    case WarningLevel => 1
    case ErrorLevel => 2
  }

  /** The log level of a returned response. */
  function LevelFor(status: int): (level: Level)
    ensures level == ErrorLevel <==> status >= 500
    ensures level == WarningLevel <==> 400 <= status < 500
    ensures level == InfoLevel <==> status < 400
  {
    if status >= 500 then ErrorLevel
    else if status >= 400 then WarningLevel
    else InfoLevel
  }

  /** A worse status never gets a milder level. */
  lemma LevelMonotone(s: int, t: int)
    requires s <= t
    ensures Severity(LevelFor(s)) <= Severity(LevelFor(t))
  {
  }

  // ---------------------------------------------------------------------------
  // The row
  // ---------------------------------------------------------------------------

  /** `headers.get(name) || fallback`: an absent or empty header falls through. */
  function HeaderOr(headers: map<string, string>, name: string, fallback: string): (v: string)
    ensures name in headers && headers[name] != "" ==> v == headers[name]
    ensures !(name in headers && headers[name] != "") ==> v == fallback
  {
    if name in headers && headers[name] != "" then headers[name] else fallback
  }

  function UserAgent(ctx: Ctx): string {
    HeaderOr(ctx.headers, "user-agent", "Unknown")
  }

  function ClientIp(ctx: Ctx): string {
    HeaderOr(ctx.headers, "x-forwarded-for", HeaderOr(ctx.headers, "x-real-ip", "Unknown"))
  }

  /** A property of the validated body, recorded for creations only and only when truthy. */
  function CreatedField(action: string, data: JsVal, key: string, field: string): seq<(string, JsVal)>
    requires !IsNullish(data)
  {
    if action == "create" && Truthy(PropertyRead(data, key)) then [(field, PropertyRead(data, key))] else []
  }

  /** The fields derived from the validated body: its keys, then the created entity's name, code and invoice number. */
  function DataFields(action: string, validatedData: Option<JsVal>): seq<(string, JsVal)> {
    if validatedData.Some? && Truthy(validatedData.value) then
      var data := validatedData.value;
      var keys := Keys(data);
      [("dataKeys", Arr(seq(|keys|, i requires 0 <= i < |keys| => Str(keys[i]))))]
      + CreatedField(action, data, "name", "entityName")
      + CreatedField(action, data, "code", "entityCode")
      + CreatedField(action, data, "invoiceNumber", "invoiceNumber")
    else []
  }

  /**
   * The `additionalData` of a returned response. The duration and timestamp
   * come from the clock and are not part of the model.
   */
  function AdditionalData(action: string, ctx: Ctx, status: int): seq<(string, JsVal)> {
    [("method", Str(ctx.httpMethod)), ("url", Str(ctx.url)), ("status", Num(status as real)),
     ("userAgent", Str(UserAgent(ctx))), ("ip", Str(ClientIp(ctx)))]
    + (if HasId(ctx.idParam) then [("entityId", Str(ctx.idParam.value))] else [])
    + DataFields(action, ctx.validatedData)
  }

  /** A row of the log collection (the message text, which carries the duration, is left out). */
  datatype LogRow = LogRow(
    level: Level,
    module_: string,
    action: string,
    user: Option<string>,
    entity: Option<(string, string)>,
    additionalData: seq<(string, JsVal)>,
    ip: string,
    userAgent: string)

  function RowFor(entity: string, action: string, ctx: Ctx, status: int): LogRow {
    LogRow(LevelFor(status), entity, action,
           if ctx.user.Some? then Some(ctx.user.value.id) else None,
           if HasId(ctx.idParam) then Some((entity, ctx.idParam.value)) else None,
           AdditionalData(action, ctx, status), ClientIp(ctx), UserAgent(ctx))
  }

  /** The creation-only fields appear exactly for a creation whose validated body has them truthy. */
  lemma EntityNameRecordedOnlyOnCreate(action: string, ctx: Ctx, status: int)
    ensures (exists k :: 0 <= k < |AdditionalData(action, ctx, status)| && AdditionalData(action, ctx, status)[k].0 == "entityName")
            <==> action == "create" && ctx.validatedData.Some? && Truthy(ctx.validatedData.value)
                 && Truthy(PropertyRead(ctx.validatedData.value, "name"))
  {
    var d := AdditionalData(action, ctx, status);
    var base := [("method", Str(ctx.httpMethod)), ("url", Str(ctx.url)), ("status", Num(status as real)),
                 ("userAgent", Str(UserAgent(ctx))), ("ip", Str(ClientIp(ctx)))]
                + (if HasId(ctx.idParam) then [("entityId", Str(ctx.idParam.value))] else []);
    assert d == base + DataFields(action, ctx.validatedData);
    assert forall k :: 0 <= k < |base| ==> base[k].0 != "entityName";
    if action == "create" && ctx.validatedData.Some? && Truthy(ctx.validatedData.value)
       && Truthy(PropertyRead(ctx.validatedData.value, "name")) {
      assert d[|base| + 1].0 == "entityName";
    } else if ctx.validatedData.Some? && Truthy(ctx.validatedData.value) {
      var data := ctx.validatedData.value;
      var rest := CreatedField(action, data, "code", "entityCode") + CreatedField(action, data, "invoiceNumber", "invoiceNumber");
      assert DataFields(action, ctx.validatedData) == [DataFields(action, ctx.validatedData)[0]] + rest;
      assert forall k :: 0 <= k < |rest| ==> rest[k].0 != "entityName";
    }
  }

  /** The log collection. */
  class LogTable {
    var rows: seq<LogRow>

    constructor ()
      ensures rows == []
    {
      rows := [];
    }
  }

  /**
   * `withDatabaseLogging(entity, action)(handler)(context)`. The response is the
   * handler's, whatever happens to the log; `saved` says whether connecting and
   * saving the row succeed, which is the database's business.
   */
  method WithDatabaseLogging(entity: string, action: string, h: Handler, ctx: Ctx, log: LogTable, saved: bool)
    returns (out: Outcome)
    modifies log
    ensures out == h(ctx)
    ensures h(ctx).Returned? && saved ==> log.rows == old(log.rows) + [RowFor(entity, action, ctx, h(ctx).response.status)]
    ensures !(h(ctx).Returned? && saved) ==> log.rows == old(log.rows)
  {
    out := h(ctx);
    if out.Threw? {
      return;
    }
    var row := RowFor(entity, action, ctx, out.response.status);
    if saved {
      log.rows := log.rows + [row];
    }
  }

  /** `withCRUDDatabaseLogging(entity)`: the action comes from the method. */
  method WithCrudDatabaseLogging(entity: string, h: Handler, ctx: Ctx, log: LogTable, saved: bool)
    returns (out: Outcome)
    modifies log
    ensures out == h(ctx)
    ensures h(ctx).Returned? && saved ==>
            log.rows == old(log.rows) + [RowFor(entity, ActionFor(ctx.httpMethod, ctx.idParam), ctx, h(ctx).response.status)]
    ensures !(h(ctx).Returned? && saved) ==> log.rows == old(log.rows)
  {
    out := WithDatabaseLogging(entity, ActionFor(ctx.httpMethod, ctx.idParam), h, ctx, log, saved);
  }
}
