/**
 * The request-body validator `withValidation` (src/libs/middleware/validation.ts):
 * the body is read as text, parsed as JSON, and checked field by field against
 * a schema; every violated rule adds one message, and the wrapped handler runs
 * only when no message was collected. Regular-expression patterns and custom
 * validators are functions carried by the rule.
 */
module Validation {
  import opened Wrappers
  import opened JsText
  import opened JsValues

  /** One field's rules. Bounds are JavaScript numbers; every schema of the program uses integers. */
  datatype Rule = Rule(
    required: bool,
    ty: Option<JsType>,
    minLength: Option<int>,
    maxLength: Option<int>,
    min: Option<int>,
    max: Option<int>,
    pattern: Option<string -> bool>,
    custom: Option<JsVal -> Option<string>>)

  /** Field names with their rules, in `Object.entries` order. */
  type Schema = seq<(string, Rule)>

  // ---------------------------------------------------------------------------
  // Messages
  // ---------------------------------------------------------------------------

  /** One violated rule; `Message` renders it as the text pushed onto `errors`. */
  datatype Violation =
    | Required(field: string)
    | WrongType(field: string, expected: JsType)
    | TooShort(field: string, bound: int)
    | TooLong(field: string, bound: int)
    | BelowMin(field: string, bound: int)
    | AboveMax(field: string, bound: int)
    | BadFormat(field: string)
    | Custom(text: string)

  function Message(v: Violation): string {
    match v
    case Required(f) => f + " es requerido"
    case WrongType(f, t) => f + " debe ser de tipo " + TypeLabel(t)
    case TooShort(f, n) => f + " debe tener al menos " + IntToDecimal(n) + " caracteres"
    case TooLong(f, n) => f + " no puede tener más de " + IntToDecimal(n) + " caracteres"
    case BelowMin(f, n) => f + " debe ser mayor o igual a " + IntToDecimal(n)
    case AboveMax(f, n) => f + " debe ser menor o igual a " + IntToDecimal(n)
    case BadFormat(f) => f + " no tiene el formato correcto"
    case Custom(text) => text
  }

  function Messages(vs: seq<Violation>): (ms: seq<string>)
    ensures |ms| == |vs| && forall i :: 0 <= i < |vs| ==> ms[i] == Message(vs[i])
  {
    seq(|vs|, i requires 0 <= i < |vs| => Message(vs[i]))
  }

  // ---------------------------------------------------------------------------
  // One field
  // ---------------------------------------------------------------------------

  /** A length bound that is present and truthy: a bound of 0 is skipped. */
  predicate TruthyBound(b: Option<int>) { b.Some? && b.value != 0 }

  /** What a required field may not be: undefined, null or the empty string. */
  predicate IsMissing(v: JsVal) { v.Undefined? || v.Null? || v == Str("") }

  function MinLengthErrors(field: string, rule: Rule, v: JsVal): seq<Violation> {
    if rule.ty == Some(TString) && v.Str? && TruthyBound(rule.minLength) && |v.s| < rule.minLength.value
    then [TooShort(field, rule.minLength.value)] else []
  }

  function MaxLengthErrors(field: string, rule: Rule, v: JsVal): seq<Violation> {
    if rule.ty == Some(TString) && v.Str? && TruthyBound(rule.maxLength) && |v.s| > rule.maxLength.value
    then [TooLong(field, rule.maxLength.value)] else []
  }

  function MinErrors(field: string, rule: Rule, v: JsVal): seq<Violation> {
    if rule.ty == Some(TNumber) && v.Num? && rule.min.Some? && v.n < rule.min.value as real
    then [BelowMin(field, rule.min.value)] else []
  }

  function MaxErrors(field: string, rule: Rule, v: JsVal): seq<Violation> {
    if rule.ty == Some(TNumber) && v.Num? && rule.max.Some? && v.n > rule.max.value as real
    then [AboveMax(field, rule.max.value)] else []
  }

  function PatternErrors(field: string, rule: Rule, v: JsVal): seq<Violation> {
    if rule.pattern.Some? && v.Str? && !rule.pattern.value(v.s) then [BadFormat(field)] else []
  }

  /** A custom validator's message counts only when it is truthy (a non-empty string). */
  function CustomErrors(rule: Rule, v: JsVal): seq<Violation> {
    if rule.custom.Some? then
      var e := rule.custom.value(v);
      if e.Some? && e.value != "" then [Custom(e.value)] else []
    else []
  }

  /** The messages one field contributes: one pass of the loop body of `withValidation`. */
  function FieldErrors(field: string, rule: Rule, v: JsVal): seq<Violation> {
    if rule.required && IsMissing(v) then [Required(field)]
    else if IsNullish(v) then []
    else if rule.ty.Some? && TypeTag(v) != rule.ty.value then [WrongType(field, rule.ty.value)]
    else CheckedErrors(field, rule, v)
  }

  /** The checks a present value of the right type goes through, in the order the source applies them. */
  function CheckedErrors(field: string, rule: Rule, v: JsVal): seq<Violation> {
    MinLengthErrors(field, rule, v) + MaxLengthErrors(field, rule, v) + MinErrors(field, rule, v)
    + MaxErrors(field, rule, v) + PatternErrors(field, rule, v) + CustomErrors(rule, v)
  }

  // ---------------------------------------------------------------------------
  // The whole schema
  // ---------------------------------------------------------------------------

  /** The list of messages, or the TypeError of reading a field of a `null` body. */
  datatype Collected = Listed(errors: seq<Violation>) | ReadFailed

  /** The messages of all fields, in schema order (no field of a null body can be read). */
  function SchemaErrors(schema: Schema, body: JsVal): seq<Violation>
    requires schema != [] ==> !IsNullish(body)
  {
    Gather(schema, body, FieldErrors)
  }

  /** How one field is checked, from its name, its rules and the value read from the body. */
  type FieldCheck = (string, Rule, JsVal) -> seq<Violation>

  /** Every field's messages under `check`, concatenated in schema order. */
  function Gather(schema: Schema, body: JsVal, check: FieldCheck): seq<Violation>
    requires schema != [] ==> !IsNullish(body)
  {
    if schema == [] then []
    else
      var field := schema[|schema| - 1].0;
      Gather(schema[..|schema| - 1], body, check) + check(field, schema[|schema| - 1].1, PropertyRead(body, field))
  }

  /** What the loop ends with: the messages, or the TypeError of reading a field of a null body. */
  function Collect(schema: Schema, body: JsVal): Collected {
    if schema != [] && IsNullish(body) then ReadFailed else Listed(SchemaErrors(schema, body))
  }

  /** One field's checks, pushing each violation in the order the loop body tests them. */
  method CheckField(field: string, rules: Rule, value: JsVal) returns (found: seq<Violation>)
    ensures found == FieldErrors(field, rules, value)
  {
    found := [];
    if rules.required && IsMissing(value) {
      found := found + [Required(field)];
      return;
    }
    if IsNullish(value) {
      return;
    }
    if rules.ty.Some? && TypeTag(value) != rules.ty.value {
      found := found + [WrongType(field, rules.ty.value)];
      return;
    }
    if rules.ty == Some(TString) && value.Str? {
      if TruthyBound(rules.minLength) && |value.s| < rules.minLength.value {
        found := found + [TooShort(field, rules.minLength.value)];
      }
      if TruthyBound(rules.maxLength) && |value.s| > rules.maxLength.value {
        found := found + [TooLong(field, rules.maxLength.value)];
      }
    }
    if rules.ty == Some(TNumber) && value.Num? {
      if rules.min.Some? && value.n < rules.min.value as real {
        found := found + [BelowMin(field, rules.min.value)];
      }
      if rules.max.Some? && value.n > rules.max.value as real {
        found := found + [AboveMax(field, rules.max.value)];
      }
    }
    assert found == MinLengthErrors(field, rules, value) + MaxLengthErrors(field, rules, value)
                    + MinErrors(field, rules, value) + MaxErrors(field, rules, value);
    if rules.pattern.Some? && value.Str? && !rules.pattern.value(value.s) {
      found := found + [BadFormat(field)];
    }
    if rules.custom.Some? {
      var customError := rules.custom.value(value);
      if customError.Some? && customError.value != "" {
        found := found + [Custom(customError.value)];
      }
    }
  }

  /** The loop of `withValidation`: every field's rules in schema order, collecting the messages. */
  method ValidateFields(schema: Schema, body: JsVal) returns (c: Collected)
    ensures c == Collect(schema, body)
  {
    var errors: seq<Violation> := [];
    var i := 0;
    while i < |schema|
      invariant 0 <= i <= |schema|
      invariant i > 0 ==> !IsNullish(body)
      invariant errors == SchemaErrors(schema[..i], body)
    {
      var field := schema[i].0;
      var rules := schema[i].1;
      if IsNullish(body) {
        return ReadFailed;
      }
      var value := PropertyRead(body, field);
      var found := CheckField(field, rules, value);
      errors := errors + found;
      assert schema[..i + 1][..i] == schema[..i];
      i := i + 1;
    }
    assert schema[..i] == schema;
    return Listed(errors);
  }

  // ---------------------------------------------------------------------------
  // The middleware
  // ---------------------------------------------------------------------------

  /** How `withValidation` disposes of a request body. */
  datatype Decision =
    | NoData
    | BadJson
    | Invalid(errors: seq<Violation>)
    | Crashed
    | Accepted(body: JsVal)

  /** `parse` is `JSON.parse`, None standing for a SyntaxError. */
  function Decide(schema: Schema, text: string, parse: string -> Option<JsVal>): Decision {
    if IsBlank(text) then NoData
    else
      match parse(text)
      case None => BadJson
      case Some(body) =>
        match Collect(schema, body)
        case ReadFailed => Crashed
        case Listed(errors) => if errors != [] then Invalid(errors) else Accepted(body)
  }

  const NoDataResponse: Response := Reply(400, false, "No se recibieron datos")
  const BadJsonResponse: Response := Reply(400, false, "Datos JSON inválidos")
  const CrashResponse: Response := Reply(500, false, "Error de validación")

  function InvalidResponse(messages: seq<string>): Response {
    Response(400, Obj([("success", Bool(false)), ("message", Str("Errores de validación")),
                       ("errors", Arr(seq(|messages|, i requires 0 <= i < |messages| => Str(messages[i]))))]), None)
  }

  /**
   * The response to a decision. The handler sees the validated body; an
   * exception from it lands in the same catch as a failed field read.
   */
  function Respond(d: Decision, h: Handler, ctx: Ctx): Outcome {
    match d
    case NoData => Returned(NoDataResponse)
    case BadJson => Returned(BadJsonResponse)
    case Invalid(errors) => Returned(InvalidResponse(Messages(errors)))
    case Crashed => Returned(CrashResponse)
    case Accepted(body) =>
      match h(ctx.(validatedData := Some(body)))
      case Returned(r) => Returned(r)
      case Threw(_) => Returned(CrashResponse)
  }

  /** One request through `withValidation(schema)(h)`. */
  function Validated(schema: Schema, parse: string -> Option<JsVal>, h: Handler, ctx: Ctx): Outcome {
    Respond(Decide(schema, ctx.bodyText, parse), h, ctx)
  }

  function WithValidation(schema: Schema, parse: string -> Option<JsVal>): Middleware {
    h => (ctx => Validated(schema, parse, h, ctx))
  }

  // ---------------------------------------------------------------------------
  // Properties
  // ---------------------------------------------------------------------------

  /** The rules of one field, as the loop body applies them. */
  lemma FieldRules(field: string, rule: Rule, v: JsVal)
    ensures rule.required && IsMissing(v) ==> FieldErrors(field, rule, v) == [Required(field)]
    ensures !rule.required && IsNullish(v) ==> FieldErrors(field, rule, v) == []
    ensures !(rule.required && IsMissing(v)) && !IsNullish(v) && rule.ty.Some? && TypeTag(v) != rule.ty.value
            ==> FieldErrors(field, rule, v) == [WrongType(field, rule.ty.value)]
    ensures |FieldErrors(field, rule, v)| <= 4
  {
  }

  /** An optional empty string is not skipped: it reaches the length check. */
  lemma OptionalEmptyStringIsChecked(field: string, n: int)
    requires n > 0
    ensures FieldErrors(field, Rule(false, Some(TString), Some(n), None, None, None, None, None), Str(""))
            == [TooShort(field, n)]
  {
  }

  /** Length and range bounds are inclusive, and a length bound of 0 is ignored. */
  lemma BoundsInclusive(field: string, rule: Rule, v: JsVal)
    ensures v.Str? && rule.minLength.Some? && |v.s| >= rule.minLength.value ==> MinLengthErrors(field, rule, v) == []
    ensures v.Str? && rule.maxLength.Some? && |v.s| <= rule.maxLength.value ==> MaxLengthErrors(field, rule, v) == []
    ensures rule.minLength == Some(0) ==> MinLengthErrors(field, rule, v) == []
    ensures rule.maxLength == Some(0) ==> MaxLengthErrors(field, rule, v) == []
    ensures v.Num? && rule.min.Some? && rule.min.value as real <= v.n ==> MinErrors(field, rule, v) == []
    ensures v.Num? && rule.max.Some? && v.n <= rule.max.value as real ==> MaxErrors(field, rule, v) == []
  {
  }

  lemma {:induction false} GatherAppend(a: Schema, b: Schema, body: JsVal, check: FieldCheck)
    requires !IsNullish(body)
    ensures Gather(a + b, body, check) == Gather(a, body, check) + Gather(b, body, check)
    decreases |b|
  {
    if b == [] {
      assert a + b == a;
    } else {
      var b' := b[..|b| - 1];
      var ab := a + b;
      assert ab[..|ab| - 1] == a + b';
      assert ab[|ab| - 1] == b[|b| - 1];
      GatherAppend(a, b', body, check);
    }
  }

  /** Messages of a concatenated schema are the concatenation, in order. */
  lemma SchemaErrorsAppend(a: Schema, b: Schema, body: JsVal)
    requires !IsNullish(body)
    ensures SchemaErrors(a + b, body) == SchemaErrors(a, body) + SchemaErrors(b, body)
  {
    GatherAppend(a, b, body, FieldErrors);
  }

  lemma {:induction false} GatherEmptyIff(schema: Schema, body: JsVal, check: FieldCheck)
    requires !IsNullish(body)
    ensures Gather(schema, body, check) == [] <==>
            forall i :: 0 <= i < |schema| ==> check(schema[i].0, schema[i].1, PropertyRead(body, schema[i].0)) == []
  {
    if schema != [] {
      var prefix := schema[..|schema| - 1];
      GatherEmptyIff(prefix, body, check);
      forall i | 0 <= i < |prefix| ensures prefix[i] == schema[i] {}
    }
  }

  /** No message at all exactly when every field on its own yields none. */
  lemma SchemaErrorsEmptyIffFieldsClean(schema: Schema, body: JsVal)
    requires !IsNullish(body)
    ensures SchemaErrors(schema, body) == [] <==>
            forall i :: 0 <= i < |schema| ==> FieldErrors(schema[i].0, schema[i].1, PropertyRead(body, schema[i].0)) == []
  {
    GatherEmptyIff(schema, body, FieldErrors);
  }

  /** A required, typed field of an accepted body is present and of its declared type. */
  lemma AcceptedFieldHasType(schema: Schema, body: JsVal, k: nat)
    requires !IsNullish(body) && SchemaErrors(schema, body) == []
    requires k < |schema| && schema[k].1.required && schema[k].1.ty.Some?
    ensures var v := PropertyRead(body, schema[k].0); !IsMissing(v) && TypeTag(v) == schema[k].1.ty.value
  {
    SchemaErrorsEmptyIffFieldsClean(schema, body);
    assert FieldErrors(schema[k].0, schema[k].1, PropertyRead(body, schema[k].0)) == [];
  }

  /** The middleware applied to a handler is `Validated` on every request. */
  lemma WithValidationApplies(schema: Schema, parse: string -> Option<JsVal>, h: Handler, ctx: Ctx)
    ensures WithValidation(schema, parse)(h)(ctx) == Validated(schema, parse, h, ctx)
  {
  }

  /**
   * How a body is decided: a blank body, then an unparseable one, then a null
   * body (whose first field read throws), then the collected messages; a body
   * is accepted exactly when none of these applies, and is passed on unchanged.
   */
  lemma DecideCases(schema: Schema, parse: string -> Option<JsVal>, text: string)
    ensures IsBlank(text) <==> Decide(schema, text, parse) == NoData
    ensures Decide(schema, text, parse) == BadJson <==> !IsBlank(text) && parse(text).None?
    ensures Decide(schema, text, parse) == Crashed <==>
            !IsBlank(text) && parse(text).Some? && IsNullish(parse(text).value) && schema != []
    ensures Decide(schema, text, parse).Invalid? ==>
            var body := parse(text).value;
            !IsNullish(body) && Decide(schema, text, parse).errors == SchemaErrors(schema, body) != []
    ensures Decide(schema, text, parse).Accepted? <==>
            (!IsBlank(text) && parse(text).Some? && Collect(schema, parse(text).value) == Listed([]))
    ensures Decide(schema, text, parse).Accepted? ==> Decide(schema, text, parse).body == parse(text).value
  {
  }

  /**
   * The handler is consulted only for an accepted body, and sees that body as
   * `validatedData`; nothing escapes the middleware, a throwing handler
   * becoming a 500 and a message list a 400.
   */
  lemma RespondCases(d: Decision, h: Handler, h': Handler, ctx: Ctx)
    ensures !d.Accepted? ==> Respond(d, h, ctx) == Respond(d, h', ctx)
    ensures Respond(d, h, ctx).Returned?
    ensures d.Accepted? && h(ctx.(validatedData := Some(d.body))).Returned? ==>
            Respond(d, h, ctx) == h(ctx.(validatedData := Some(d.body)))
    ensures d.Accepted? && h(ctx.(validatedData := Some(d.body))).Threw? ==> Respond(d, h, ctx) == Returned(CrashResponse)
    ensures d.Invalid? ==> Respond(d, h, ctx) == Returned(InvalidResponse(Messages(d.errors)))
    ensures d.Crashed? ==> Respond(d, h, ctx).response.status == 500
    ensures d.NoData? || d.BadJson? || d.Invalid? ==> Respond(d, h, ctx).response.status == 400
  {
  }

  // ---------------------------------------------------------------------------
  // The schemas of the program (validationSchemas)
  // ---------------------------------------------------------------------------

  function StringRule(required: bool, minLength: Option<int>, maxLength: Option<int>): Rule {
    Rule(required, Some(TString), minLength, maxLength, None, None, None, None)
  }

  function NumberRule(required: bool, min: Option<int>): Rule {
    Rule(required, Some(TNumber), None, None, min, None, None, None)
  }

  function ArrayRule(required: bool): Rule {
    Rule(required, Some(TArray), None, None, None, None, None, None)
  }

  /** `/^[^\s@]+@[^\s@]+\.[^\s@]+$/`: no whitespace, one '@' after a non-empty part, then a '.' with text on both sides. */
  predicate EmailShaped(s: string) {
    NoWhitespace(s) && '@' in s &&
    exists i, j | 0 < i < j < |s| - 1 :: s[i] == '@' && s[j] == '.' && i + 1 < j && '@' !in s[..i] && '@' !in s[i + 1..]
  }

  /** The user schema's custom email check. */
  function EmailHasAt(v: JsVal): Option<string> {
    if v.Str? && !Includes(v.s, "@") then Some("Email debe ser válido") else None
  }

  function EmailRule(withCustom: bool): Rule {
    Rule(true, Some(TString), None, None, None, None, Some(EmailShaped), if withCustom then Some(EmailHasAt) else None)
  }

  const IngredientSchema: Schema := [
    ("name", StringRule(true, Some(1), Some(100))),
    ("description", StringRule(true, Some(1), Some(500))),
    ("supplier", StringRule(true, Some(1), Some(100))),
    ("stock", NumberRule(false, Some(0))),
    ("category", StringRule(true, Some(1), Some(50)))]

  const RecipeSchema: Schema := [
    ("name", StringRule(true, Some(1), Some(100))),
    ("description", StringRule(true, Some(1), Some(500))),
    ("instructions", StringRule(true, Some(1), Some(2000))),
    ("preparationTime", NumberRule(true, Some(1))),
    ("servings", NumberRule(true, Some(1))),
    ("category", StringRule(true, Some(1), Some(50))),
    ("creator", StringRule(false, None, Some(100))),
    ("ingredients", ArrayRule(false))]

  const RawMaterialSchema: Schema := [
    ("name", StringRule(true, Some(1), Some(100))),
    ("code", StringRule(true, Some(1), Some(50))),
    ("description", StringRule(true, Some(1), Some(500))),
    ("category", StringRule(true, Some(1), Some(50))),
    ("unit", StringRule(true, Some(1), Some(20))),
    ("minimumStock", NumberRule(true, Some(0))),
    ("maximumStock", NumberRule(true, Some(0))),
    ("unitCost", NumberRule(true, Some(0))),
    ("unitPrice", NumberRule(true, Some(0)))]

  const UserSchema: Schema := [
    ("name", StringRule(true, Some(1), Some(100))),
    ("email", EmailRule(true)),
    ("password", StringRule(true, Some(6), None)),
    ("role", StringRule(true, None, None))]

  const SupplierSchema: Schema := [
    ("name", StringRule(true, Some(1), Some(100))),
    ("email", EmailRule(false)),
    ("phone", StringRule(true, Some(1), Some(20)))]

  const CustomerSchema: Schema := [
    ("name", StringRule(true, Some(1), Some(100))),
    ("phone", StringRule(true, Some(1), Some(20))),
    ("email", EmailRule(false))]

  const BranchSchema: Schema := [
    ("name", StringRule(true, Some(1), Some(100))),
    ("code", StringRule(true, Some(1), Some(20))),
    ("address", StringRule(true, Some(1), Some(200))),
    ("city", StringRule(true, Some(1), Some(50)))]

  const InvoiceSchema: Schema := [
    ("invoiceNumber", StringRule(true, Some(1), Some(50))),
    ("supplier", StringRule(true, Some(1), None)),
    ("branch", StringRule(true, Some(1), None)),
    ("invoiceDate", StringRule(true, None, None)),
    ("dueDate", StringRule(true, None, None)),
    ("items", ArrayRule(true)),
    ("subtotal", NumberRule(true, Some(0))),
    ("taxAmount", NumberRule(false, Some(0))),
    ("discountAmount", NumberRule(false, Some(0))),
    ("totalAmount", NumberRule(true, Some(0))),
    ("notes", StringRule(false, None, Some(1000))),
    ("paymentMethod", StringRule(false, None, Some(50)))]

  /** An email accepted by the user schema contains no whitespace at all. */
  lemma AcceptedUserEmailIsClean(body: JsVal)
    requires !IsNullish(body) && SchemaErrors(UserSchema, body) == []
    ensures PropertyRead(body, "email").Str? && NoWhitespace(PropertyRead(body, "email").s)
  {
    SchemaErrorsEmptyIffFieldsClean(UserSchema, body);
    var v := PropertyRead(body, "email");
    assert UserSchema[1].0 == "email";
    assert FieldErrors("email", EmailRule(true), v) == [];
  }

  /** A one-field schema yields that field's messages. */
  lemma CollectSingle(field: string, rule: Rule, body: JsVal)
    requires !IsNullish(body)
    ensures SchemaErrors([(field, rule)], body) == FieldErrors(field, rule, PropertyRead(body, field))
  {
    assert [(field, rule)][..0] == [];
    assert Gather([(field, rule)], body, FieldErrors) == Gather([], body, FieldErrors) + FieldErrors(field, rule, PropertyRead(body, field));
  }

  /** `{ name: "" }` against the user schema: every field is reported as required, in schema order. */
  lemma EmptyNameErrors()
    ensures SchemaErrors(UserSchema, Obj([("name", Str(""))])) ==
            [Required("name"), Required("email"), Required("password"), Required("role")]
  {
    var body := Obj([("name", Str(""))]);
    var s0, s1, s2, s3 := [UserSchema[0]], [UserSchema[1]], [UserSchema[2]], [UserSchema[3]];
    assert UserSchema == s0 + s1 + s2 + s3;
    assert FieldErrors("name", UserSchema[0].1, PropertyRead(body, "name")) == [Required("name")];
    assert FieldErrors("email", UserSchema[1].1, PropertyRead(body, "email")) == [Required("email")];
    assert FieldErrors("password", UserSchema[2].1, PropertyRead(body, "password")) == [Required("password")];
    assert FieldErrors("role", UserSchema[3].1, PropertyRead(body, "role")) == [Required("role")];
    CollectSingle(UserSchema[0].0, UserSchema[0].1, body);
    CollectSingle(UserSchema[1].0, UserSchema[1].1, body);
    CollectSingle(UserSchema[2].0, UserSchema[2].1, body);
    CollectSingle(UserSchema[3].0, UserSchema[3].1, body);
    SchemaErrorsAppend(s0, s1, body);
    SchemaErrorsAppend(s0 + s1, s2, body);
    SchemaErrorsAppend(s0 + s1 + s2, s3, body);
  }

  /** The same body through the middleware: a 400 listing the four messages, without calling the handler. */
  lemma EmptyNameRejected(parse: string -> Option<JsVal>, h: Handler, ctx: Ctx)
    requires !IsBlank(ctx.bodyText) && parse(ctx.bodyText) == Some(Obj([("name", Str(""))]))
    ensures Validated(UserSchema, parse, h, ctx) ==
            Returned(InvalidResponse(["name es requerido", "email es requerido", "password es requerido", "role es requerido"]))
  {
    EmptyNameErrors();
    var vs := [Required("name"), Required("email"), Required("password"), Required("role")];
    assert Decide(UserSchema, ctx.bodyText, parse) == Invalid(vs);
    RequiredMessages(vs);
  }

  lemma RequiredMessages(vs: seq<Violation>)
    requires vs == [Required("name"), Required("email"), Required("password"), Required("role")]
    ensures Messages(vs) == ["name es requerido", "email es requerido", "password es requerido", "role es requerido"]
  {
    assert Message(Required("name")) == "name es requerido";
    assert Message(Required("email")) == "email es requerido";
    assert Message(Required("password")) == "password es requerido";
    assert Message(Required("role")) == "role es requerido";
  }
}
