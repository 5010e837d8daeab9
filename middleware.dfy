/**
 * Middleware composition (src/libs/middleware/index.ts): `combineMiddlewares`
 * and the preset chains every route is wrapped in. A chain is kept as the list
 * of its layers, so that its order can be stated, and is given a meaning as a
 * handler transformer.
 *
 * `withAuth` and `withRole` come from src/libs/middleware/auth.ts, which is not
 * part of this model: they are a gate that either answers with its own
 * response without running the inner handler, or runs it with the caller
 * attached. The two console loggers pass every outcome through unchanged.
 */
module Middlewares {
  import opened Wrappers
  import opened JsValues
  import opened Validation
  import opened ErrorHandler

  /** `combineMiddlewares(...ms)(h)`: `ms.reduceRight((acc, m) => m(acc), h)`. */
  function Combine(ms: seq<Middleware>, h: Handler): Handler
    decreases |ms|
  {
    if ms == [] then h else Combine(ms[..|ms| - 1], ms[|ms| - 1](h))
  }

  /** The first middleware listed is the outermost one. */
  lemma {:induction false} CombineOutermost(ms: seq<Middleware>, h: Handler)
    requires ms != []
    ensures Combine(ms, h) == ms[0](Combine(ms[1..], h))
    decreases |ms|
  {
    if |ms| > 1 {
      var init := ms[..|ms| - 1];
      CombineOutermost(init, ms[|ms| - 1](h));
      assert init[1..] == ms[1..][..|ms[1..]| - 1];
    }
  }

  /** Combining a concatenation nests the second list inside the first. */
  lemma {:induction false} CombineAppend(a: seq<Middleware>, b: seq<Middleware>, h: Handler)
    ensures Combine(a + b, h) == Combine(a, Combine(b, h))
    decreases |b|
  {
    if b == [] {
      assert a + b == a;
    } else {
      var ab := a + b;
      assert ab[..|ab| - 1] == a + b[..|b| - 1];
      assert ab[|ab| - 1] == b[|b| - 1];
      CombineAppend(a, b[..|b| - 1], b[|b| - 1](h));
    }
  }

  // ---------------------------------------------------------------------------
  // Layers and presets
  // ---------------------------------------------------------------------------

  datatype Layer =
    | Logging                 // withLogging
    | CrudLogging(entity: string)  // withCRUDLogging(entity)
    | Auth                    // withAuth
    | Role(allowed: seq<string>)   // withRole(allowedRoles)
    | Validate(schema: Schema)     // withValidation(schema)
    | DatabaseErrors          // withDatabaseErrorHandler

  function StandardCrud(entity: string): seq<Layer> {
    [Logging, CrudLogging(entity), Auth, DatabaseErrors]
  }

  function CrudValidation(entity: string, schema: Schema): seq<Layer> {
    [Logging, CrudLogging(entity), Auth, Validate(schema), DatabaseErrors]
  }

  function ReadOnly(entity: string): seq<Layer> {
    [Logging, CrudLogging(entity), Auth, DatabaseErrors]
  }

  function RoleValidation(entity: string, allowedRoles: seq<string>, schema: Option<Schema>): seq<Layer> {
    [Logging, CrudLogging(entity), Auth, Role(allowedRoles)]
    + (if schema.Some? then [Validate(schema.value)] else [])
    + [DatabaseErrors]
  }

  /** `allowedRoles` is optional; an empty list is still truthy and still adds the role check. */
  function WriteOperation(entity: string, schema: Schema, allowedRoles: Option<seq<string>>): seq<Layer> {
    [Logging, CrudLogging(entity), Auth]
    + (if allowedRoles.Some? then [Role(allowedRoles.value)] else [])
    + [Validate(schema), DatabaseErrors]
  }

  /** `withRoleValidation` builds its list by pushing onto a base list. */
  method RoleValidationLayers(entity: string, allowedRoles: seq<string>, schema: Option<Schema>) returns (layers: seq<Layer>)
    ensures layers == RoleValidation(entity, allowedRoles, schema)
  {
    layers := [Logging, CrudLogging(entity), Auth, Role(allowedRoles)];
    if schema.Some? {
      layers := layers + [Validate(schema.value)];
    }
    layers := layers + [DatabaseErrors];
  }

  /** `withWriteOperation` builds its list the same way. */
  method WriteOperationLayers(entity: string, schema: Schema, allowedRoles: Option<seq<string>>) returns (layers: seq<Layer>)
    ensures layers == WriteOperation(entity, schema, allowedRoles)
  {
    layers := [Logging, CrudLogging(entity), Auth];
    if allowedRoles.Some? {
      layers := layers + [Role(allowedRoles.value)];
    }
    layers := layers + [Validate(schema)];
    layers := layers + [DatabaseErrors];
  }

  /** The read-only preset and the standard CRUD preset are the same chain. */
  lemma ReadOnlyIsStandardCrud(entity: string)
    ensures ReadOnly(entity) == StandardCrud(entity)
  {
  }

  /**
   * In every preset the caller is authenticated third, right after the two
   * loggers, and the database error handler is innermost; the role check, when
   * present, comes right after authentication, and validation after both.
   */
  lemma PresetOrder(entity: string, allowedRoles: seq<string>, schema: Schema, roles: Option<seq<string>>, maybeSchema: Option<Schema>)
    ensures var l := CrudValidation(entity, schema);
            l[2] == Auth && l[3] == Validate(schema) && l[|l| - 1] == DatabaseErrors
    ensures var l := RoleValidation(entity, allowedRoles, maybeSchema);
            l[2] == Auth && l[3] == Role(allowedRoles) && l[|l| - 1] == DatabaseErrors
            && (maybeSchema.Some? <==> |l| == 6) && (maybeSchema.Some? ==> l[4] == Validate(maybeSchema.value))
    ensures var l := WriteOperation(entity, schema, roles);
            l[2] == Auth && l[|l| - 1] == DatabaseErrors && l[|l| - 2] == Validate(schema)
            && (roles.Some? <==> |l| == 6) && (roles.Some? ==> l[3] == Role(roles.value))
  {
  }

  // ---------------------------------------------------------------------------
  // What a chain does
  // ---------------------------------------------------------------------------

  /**
   * The outside world a chain depends on: the environment name, the session
   * check behind `withAuth` with the responses of the two gates, and `JSON.parse`.
   */
  datatype Env = Env(
    nodeEnv: string,
    authenticate: Ctx -> Option<Principal>,
    unauthorized: Response,
    forbidden: Response,
    parse: string -> Option<JsVal>)

  function AuthGate(env: Env, h: Handler, ctx: Ctx): Outcome {
    match env.authenticate(ctx)
    case None => Returned(env.unauthorized)
    case Some(p) => h(ctx.(user := Some(p)))
  }

  function RoleGate(env: Env, allowed: seq<string>, h: Handler, ctx: Ctx): Outcome {
    if ctx.user.Some? && ctx.user.value.role in allowed then h(ctx) else Returned(env.forbidden)
  }

  /** A console logger: it prints, then returns or rethrows what the handler gave. */
  function PassThrough(h: Handler): Handler {
    ctx => h(ctx)
  }

  function Meaning(layer: Layer, env: Env): Middleware {
    match layer
    case Logging => PassThrough
    case CrudLogging(_) => PassThrough
    case Auth => h => (ctx => AuthGate(env, h, ctx))
    case Role(allowed) => h => (ctx => RoleGate(env, allowed, h, ctx))
    case Validate(schema) => WithValidation(schema, env.parse)
    case DatabaseErrors => WithDatabaseErrorHandler(env.nodeEnv)
  }

  function Meanings(layers: seq<Layer>, env: Env): (ms: seq<Middleware>)
    ensures |ms| == |layers|
  {
    if layers == [] then [] else [Meaning(layers[0], env)] + Meanings(layers[1..], env)
  }

  lemma {:induction false} MeaningsAppend(a: seq<Layer>, b: seq<Layer>, env: Env)
    ensures Meanings(a + b, env) == Meanings(a, env) + Meanings(b, env)
  {
    if a != [] {
      assert (a + b)[1..] == a[1..] + b;
      MeaningsAppend(a[1..], b, env);
    } else {
      assert a + b == b;
    }
  }

  /** The handler a route exports: `combineMiddlewares(...layers)(h)`. */
  function Build(layers: seq<Layer>, env: Env, h: Handler): Handler {
    Combine(Meanings(layers, env), h)
  }

  /** A chain that starts with the two loggers and the session check. */
  lemma BuildAfterAuth(entity: string, rest: seq<Layer>, env: Env, h: Handler, ctx: Ctx)
    ensures Build([Logging, CrudLogging(entity), Auth] + rest, env, h)(ctx) == AuthGate(env, Build(rest, env, h), ctx)
  {
    var front := [Logging, CrudLogging(entity), Auth];
    MeaningsAppend(front, rest, env);
    var f := Meanings(front, env);
    CombineAppend(f, Meanings(rest, env), h);
    var inner := Build(rest, env, h);
    assert front[1..] == [CrudLogging(entity), Auth] && front[1..][1..] == [Auth] && [Auth][1..] == [];
    assert Meanings([Auth], env) == [Meaning(Auth, env)];
    assert Meanings(front[1..], env) == [PassThrough, Meaning(Auth, env)];
    assert f == [PassThrough, PassThrough, Meaning(Auth, env)];
    var gate := Meaning(Auth, env)(inner);
    assert gate(ctx) == AuthGate(env, inner, ctx);
    assert Combine([Meaning(Auth, env)], inner) == gate;
    CombineOutermost(f[1..], inner);
    assert f[1..][1..] == [Meaning(Auth, env)];
    var second := PassThrough(gate);
    assert Combine(f[1..], inner) == second;
    CombineOutermost(f, inner);
    assert Combine(f, inner) == PassThrough(second);
    assert PassThrough(second)(ctx) == second(ctx) == gate(ctx);
  }

  /** Without a session no preset consults validation or the handler: the gate's 401 is the answer. */
  lemma UnauthenticatedStopsAtGate(entity: string, schema: Schema, env: Env, h: Handler, ctx: Ctx)
    requires env.authenticate(ctx).None?
    ensures Build(CrudValidation(entity, schema), env, h)(ctx) == Returned(env.unauthorized)
    ensures Build(StandardCrud(entity), env, h)(ctx) == Returned(env.unauthorized)
  {
    assert CrudValidation(entity, schema) == [Logging, CrudLogging(entity), Auth] + [Validate(schema), DatabaseErrors];
    BuildAfterAuth(entity, [Validate(schema), DatabaseErrors], env, h, ctx);
    assert StandardCrud(entity) == [Logging, CrudLogging(entity), Auth] + [DatabaseErrors];
    BuildAfterAuth(entity, [DatabaseErrors], env, h, ctx);
  }

  /** A signed-in caller whose role is not allowed gets the role gate's 403; validation and the handler never run. */
  lemma ForbiddenStopsBeforeValidation(entity: string, allowedRoles: seq<string>, schema: Option<Schema>,
                                        env: Env, h: Handler, ctx: Ctx)
    requires env.authenticate(ctx).Some? && env.authenticate(ctx).value.role !in allowedRoles
    ensures Build(RoleValidation(entity, allowedRoles, schema), env, h)(ctx) == Returned(env.forbidden)
  {
    var rest := [Role(allowedRoles)] + (if schema.Some? then [Validate(schema.value)] else []) + [DatabaseErrors];
    assert RoleValidation(entity, allowedRoles, schema) == [Logging, CrudLogging(entity), Auth] + rest;
    BuildAfterAuth(entity, rest, env, h, ctx);
    var p := env.authenticate(ctx).value;
    var tail := rest[1..];
    assert Meanings(rest, env) == [Meaning(Role(allowedRoles), env)] + Meanings(tail, env);
    CombineOutermost(Meanings(rest, env), h);
    assert Meanings(rest, env)[1..] == Meanings(tail, env);
  }

  /** With a session, the validated chain runs validation on the request with the caller attached. */
  lemma AuthenticatedReachesValidation(entity: string, schema: Schema, env: Env, h: Handler, ctx: Ctx)
    requires env.authenticate(ctx).Some?
    ensures Build(CrudValidation(entity, schema), env, h)(ctx) ==
            Validated(schema, env.parse, WithDatabaseErrorHandler(env.nodeEnv)(h), ctx.(user := env.authenticate(ctx)))
  {
    var rest := [Validate(schema), DatabaseErrors];
    assert CrudValidation(entity, schema) == [Logging, CrudLogging(entity), Auth] + rest;
    BuildAfterAuth(entity, rest, env, h, ctx);
    assert rest[1..] == [DatabaseErrors] && [DatabaseErrors][1..] == [];
    assert Meanings([DatabaseErrors], env) == [WithDatabaseErrorHandler(env.nodeEnv)];
    var ms := Meanings(rest, env);
    assert ms == [WithValidation(schema, env.parse), WithDatabaseErrorHandler(env.nodeEnv)];
    var guarded := WithDatabaseErrorHandler(env.nodeEnv)(h);
    assert ms[..1] == [WithValidation(schema, env.parse)] && ms[..1][..0] == [];
    assert Combine(ms[..1], guarded) == WithValidation(schema, env.parse)(guarded);
    assert Build(rest, env, h) == WithValidation(schema, env.parse)(guarded);
    WithValidationApplies(schema, env.parse, guarded, ctx.(user := env.authenticate(ctx)));
  }
}
