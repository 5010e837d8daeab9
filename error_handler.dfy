/**
 * The error-to-response middlewares of src/libs/middleware/errorHandler.ts.
 * `withErrorHandler` passes a returned response through and turns anything
 * thrown into a JSON error response, choosing the status by the first rule of
 * a fixed list that matches the error; `withDatabaseErrorHandler` first maps
 * the two database errors it knows and rethrows the rest to that classifier.
 */
module ErrorHandler {
  import opened Wrappers
  import opened JsText
  import opened JsValues

  /** A response status with the message that goes with it. */
  datatype Verdict = Verdict(status: int, message: string)

  const GenericFailure: Verdict := Verdict(500, "Error interno del servidor")

  predicate IsDuplicateKey(e: Thrown) {
    e.Error? && e.name == "MongoError" && e.code == Some(11000)
  }

  predicate Mentions(e: Thrown, word: string, other: string) {
    e.Error? && (Includes(e.message, word) || Includes(e.message, other))
  }

  /** The if / else-if chain of the catch block: the first rule that applies decides. */
  function Classify(e: Thrown): Verdict {
    if !e.Error? then GenericFailure
    else if e.name == "ValidationError" then Verdict(400, "Error de validación de datos")
    else if IsDuplicateKey(e) then Verdict(409, "El recurso ya existe")
    else if Mentions(e, "connection", "timeout") then Verdict(503, "Error de conexión a la base de datos")
    else if Mentions(e, "auth", "token") then Verdict(401, "Error de autenticación")
    else if Mentions(e, "permission", "forbidden") then Verdict(403, "No tienes permisos para realizar esta acción")
    else if Mentions(e, "not found", "no encontrado") then Verdict(404, "Recurso no encontrado")
    else if Mentions(e, "validation", "validación") then Verdict(400, e.message)
    else GenericFailure
  }

  // ---------------------------------------------------------------------------
  // The same rules as a table, each on its own
  // ---------------------------------------------------------------------------

  const RuleCount: nat := 7

  /** Whether rule `i` of the table applies to `e`, regardless of the others. */
  predicate RuleApplies(e: Thrown, i: nat)
    requires i < RuleCount
  {
    e.Error? &&
    match i
    case 0 => e.name == "ValidationError"
    case 1 => IsDuplicateKey(e)
    case 2 => Includes(e.message, "connection") || Includes(e.message, "timeout")
    case 3 => Includes(e.message, "auth") || Includes(e.message, "token")
    case 4 => Includes(e.message, "permission") || Includes(e.message, "forbidden")
    case 5 => Includes(e.message, "not found") || Includes(e.message, "no encontrado")
    case _ => Includes(e.message, "validation") || Includes(e.message, "validación")
  }

  /** The verdict rule `i` gives. */
  function RuleVerdict(e: Thrown, i: nat): Verdict
    requires i < RuleCount && e.Error?
  {
    match i
    case 0 => Verdict(400, "Error de validación de datos")
    case 1 => Verdict(409, "El recurso ya existe")
    case 2 => Verdict(503, "Error de conexión a la base de datos")
    case 3 => Verdict(401, "Error de autenticación")
    case 4 => Verdict(403, "No tienes permisos para realizar esta acción")
    case 5 => Verdict(404, "Recurso no encontrado")
    case _ => Verdict(400, e.message)
  }

  /** Rule `i` applies and no earlier rule does. */
  predicate FirstApplying(e: Thrown, i: nat)
    requires i < RuleCount
  {
    RuleApplies(e, i) && forall j :: 0 <= j < i ==> !RuleApplies(e, j)
  }

  /** The chain gives the verdict of the first applicable rule of the table. */
  lemma {:induction false} ClassifyIsFirstMatch(e: Thrown, i: nat)
    requires i < RuleCount
    ensures FirstApplying(e, i) ==> Classify(e) == RuleVerdict(e, i)
  {
    if FirstApplying(e, i) {
      if i >= 1 { assert !RuleApplies(e, 0); }
      if i >= 2 { assert !RuleApplies(e, 1); }
      if i >= 3 { assert !RuleApplies(e, 2); }
      if i >= 4 { assert !RuleApplies(e, 3); }
      if i >= 5 { assert !RuleApplies(e, 4); }
      if i >= 6 { assert !RuleApplies(e, 5); }
    }
  }

  /** The generic 500 is given exactly when no rule applies, non-`Error` values included. */
  lemma {:induction false} GenericIffNoRule(e: Thrown)
    ensures Classify(e).status == 500 <==> forall j :: 0 <= j < RuleCount ==> !RuleApplies(e, j)
    ensures Classify(e).status == 500 ==> Classify(e) == GenericFailure
    ensures !e.Error? ==> Classify(e) == GenericFailure
  {
    if forall j :: 0 <= j < RuleCount ==> !RuleApplies(e, j) {
      assert !RuleApplies(e, 0) && !RuleApplies(e, 1) && !RuleApplies(e, 2) && !RuleApplies(e, 3);
      assert !RuleApplies(e, 4) && !RuleApplies(e, 5) && !RuleApplies(e, 6);
    }
  }

  /** Order matters: a message naming both a timeout and a token is a connection error, not an authentication error. */
  lemma TimeoutBeatsToken(e: Thrown)
    requires e.Error? && e.name != "ValidationError" && !IsDuplicateKey(e)
    requires Includes(e.message, "timeout") && Includes(e.message, "token")
    ensures RuleApplies(e, 3)
    ensures Classify(e) == Verdict(503, "Error de conexión a la base de datos")
  {
  }

  // ---------------------------------------------------------------------------
  // Responses
  // ---------------------------------------------------------------------------

  /** The fields added in development: the error text and, when there is one, the stack. */
  function DevelopmentFields(e: Thrown): seq<(string, JsVal)> {
    match e
    case Error(_, message, _, _, stack) =>
      [("error", Str(message))] + (if stack.Some? then [("stack", Str(stack.value))] else [])
    case NonError(text) => [("error", Str(text))]
  }

  /** `error.message` for an `Error`, `String(error)` otherwise. */
  function ErrorText(e: Thrown): string {
    if e.Error? then e.message else e.text
  }

  /** The error body: the message always, the error text and stack only in development. */
  function ErrorResponse(e: Thrown, nodeEnv: string): (r: Response)
    ensures r.status == Classify(e).status && r.setCookie.None? && r.body.Obj?
    ensures |r.body.props| >= 2 && r.body.props[..2] == MessageBody(false, Classify(e).message).props
    ensures nodeEnv != "development" ==> r.body == MessageBody(false, Classify(e).message)
    ensures nodeEnv == "development" ==> |r.body.props| >= 3 && r.body.props[2] == ("error", Str(ErrorText(e)))
    ensures nodeEnv == "development" ==> (|r.body.props| == 4 <==> e.Error? && e.stack.Some?)
  {
    var v := Classify(e);
    var extra := if nodeEnv == "development" then DevelopmentFields(e) else [];
    Response(v.status, Obj(MessageBody(false, v.message).props + extra), None)
  }

  /** `withErrorHandler(handler)`; `nodeEnv` is `process.env.NODE_ENV`. */
  function WithErrorHandler(nodeEnv: string): Middleware {
    h => (ctx => Handled(nodeEnv, h, ctx))
  }

  function Handled(nodeEnv: string, h: Handler, ctx: Ctx): Outcome {
    match h(ctx)
    case Returned(r) => Returned(r)
    case Threw(e) => Returned(ErrorResponse(e, nodeEnv))
  }

  /** A returned response passes unchanged; nothing thrown escapes. */
  lemma HandledCases(nodeEnv: string, h: Handler, ctx: Ctx)
    ensures WithErrorHandler(nodeEnv)(h)(ctx) == Handled(nodeEnv, h, ctx)
    ensures h(ctx).Returned? ==> Handled(nodeEnv, h, ctx) == h(ctx)
    ensures h(ctx).Threw? ==> Handled(nodeEnv, h, ctx) == Returned(ErrorResponse(h(ctx).error, nodeEnv))
    ensures Handled(nodeEnv, h, ctx).Returned?
  {
  }

  // ---------------------------------------------------------------------------
  // The database variant
  // ---------------------------------------------------------------------------

  /**
   * The field named in a duplicate-key message: the first key of `keyPattern`
   * (an empty pattern has none and renders as "undefined"), or 'campo' when
   * the error carries no pattern.
   */
  function DuplicateField(keyPattern: Option<seq<string>>): string {
    match keyPattern
    case None => "campo"
    case Some(keys) => if keys == [] then "undefined" else keys[0]
  }

  /** The response for the two errors the database handler knows; None when it rethrows. */
  function DatabaseErrorResponse(e: Thrown): (r: Option<Response>)
    ensures r.Some? <==> e.Error? && (e.name == "CastError" || IsDuplicateKey(e))
    ensures r.Some? && e.name == "CastError" ==> r.value == Reply(400, false, "ID de recurso inválido")
    ensures r.Some? && IsDuplicateKey(e) ==> r.value.status == 409
  {
    if e.Error? && e.name == "CastError" then Some(Reply(400, false, "ID de recurso inválido"))
    else if IsDuplicateKey(e) then Some(Reply(409, false, "Ya existe un recurso con este " + DuplicateField(e.keyPattern)))
    else None
  }

  /** The inner try/catch: known database errors become responses, others are rethrown. */
  function DatabaseMapped(h: Handler, ctx: Ctx): Outcome {
    match h(ctx)
    case Returned(r) => Returned(r)
    case Threw(e) =>
      match DatabaseErrorResponse(e)
      case Some(r) => Returned(r)
      case None => Threw(e)
  }

  /** `withDatabaseErrorHandler(handler)`: the inner mapping, wrapped in `withErrorHandler`. */
  function WithDatabaseErrorHandler(nodeEnv: string): Middleware {
    h => WithErrorHandler(nodeEnv)(DatabaseLayer(h))
  }

  function DatabaseLayer(h: Handler): Handler {
    ctx => DatabaseMapped(h, ctx)
  }

  /**
   * A cast error is a 400 and a duplicate key a 409 naming the field; any
   * other error reaches the general classifier exactly as if thrown there.
   */
  lemma DatabaseCases(nodeEnv: string, h: Handler, ctx: Ctx)
    ensures h(ctx).Returned? ==> WithDatabaseErrorHandler(nodeEnv)(h)(ctx) == h(ctx)
    ensures h(ctx).Threw? && h(ctx).error.Error? && h(ctx).error.name == "CastError" ==>
            WithDatabaseErrorHandler(nodeEnv)(h)(ctx) == Returned(Reply(400, false, "ID de recurso inválido"))
    ensures h(ctx).Threw? && IsDuplicateKey(h(ctx).error) && h(ctx).error.name != "CastError" ==>
            WithDatabaseErrorHandler(nodeEnv)(h)(ctx) ==
              Returned(Reply(409, false, "Ya existe un recurso con este " + DuplicateField(h(ctx).error.keyPattern)))
    ensures h(ctx).Threw? && DatabaseErrorResponse(h(ctx).error).None? ==>
            WithDatabaseErrorHandler(nodeEnv)(h)(ctx) == WithErrorHandler(nodeEnv)(h)(ctx)
    ensures WithDatabaseErrorHandler(nodeEnv)(h)(ctx).Returned?
  {
    var inner := DatabaseLayer(h);
    assert inner(ctx) == DatabaseMapped(h, ctx);
    HandledCases(nodeEnv, inner, ctx);
    assert WithDatabaseErrorHandler(nodeEnv)(h)(ctx) == WithErrorHandler(nodeEnv)(inner)(ctx);
    HandledCases(nodeEnv, h, ctx);
  }

  /** A duplicate key without a pattern names 'campo'; with one, its first key. */
  lemma DuplicateFieldCases(keys: seq<string>)
    ensures DuplicateField(None) == "campo"
    ensures keys != [] ==> DuplicateField(Some(keys)) == keys[0]
  {
  }
}
