# fabrika request pipeline and core routes, in Dafny

This project models the server side of fabrika, a production-management
backend. It covers the request pipeline every API route is wrapped in, the
cookie-and-token session code, and the routes that carry the business rules.

**Request pipeline (src/libs/middleware)**
- Body validation against a field schema: `withValidation` and the predefined schemas.
- Errors turned into JSON responses: `withErrorHandler` and `withDatabaseErrorHandler`.
- An audit row written for each request: `withDatabaseLogging` and `withCRUDDatabaseLogging`.
- Composition of these layers into preset chains: `combineMiddlewares`, `withCRUDValidation`, `withRoleValidation` and the others.

**Sessions (src/libs/auth.ts)**
- The `Set-Cookie` values and the parse of the `Cookie` header.
- Issuing and verifying JWT pairs.
- `requireAuth`, which falls back to the refresh token when the access token has expired and rotates the stored refresh token.

**Routes**
- login, with its hex SHA-256 password comparison.
- The `me` session probe, with its own cookie parse.
- User creation, with its role-permission matrix.
- Recipe creation.
- Producing a batch of a recipe: stock check, deduction and crediting of the output.
- Invoice creation, with its amount checks, and the invoice listing with filters and pagination.
- Company subscription renewal and the active check.

**How each kind of code is modelled**
- Pure decisions are functions. Each one has lemmas relating it to an independent statement of what the route promises.
- Code that changes stored state is a class with `modifies` clauses: the users, recipes, invoices, raw-material, ingredient, log and company collections, and the response headers. Each method is proved equal to the decision function, and its new state is stated in full.
- Loops in the source are `while` loops with invariants. These are the validation field loop, the cookie `reduce`, the ingredient and stock loops, the name and number scans and the invoice amount check.
- JavaScript values are the datatype `JsVal` (module JsValues). It has `undefined`, `null`, booleans, numbers as reals, strings, arrays, and objects as ordered property lists.
- A handler is a function from the request context to either a returned `Response` or a thrown error. A middleware maps handlers to handlers.
- A validated body reaches a route through the context. `withValidation` stores it on the context object (src/libs/middleware/validation.ts:132), and the modelled routes read it from `ctx.validatedData`. The routes as written read it from the request instead; "## Left out" says what that changes.
- Code the model cannot see is a parameter. This covers JSON parsing, JWT signing and checking, SHA-256, bcrypt, database lookups that may throw, and the session helpers of src/libs/middleware/auth.ts.

The source imports `User`, the typegoose class, into src/libs/auth.ts and calls `User.findById` on it. That class has no static `findById`, so every refresh ends in the catch branch. The model keeps this as-written behaviour, for the refresh and for `requireAuth` (AuthSession.RequireAuthAsWrittenNeverRefreshes), and also proves the intended refresh logic. The intended logic is what the rest of the model uses (see Findings).

`setTokensCookies` (src/libs/auth.ts:90-93) sets `Set-Cookie` twice with `headers.set`, so the second value replaces the first. Only the refresh cookie is left on the response, and the model states exactly that (Cookies.SetTokensCookies).

## Model

| member | source | states |
|---|---|---|
| JsText.Trim | src/pages/api/users/index.ts:66-67 | the result has no whitespace at either end; it is empty exactly when the input is all whitespace; an already trimmed string is unchanged |
| JsText.TrimIdempotent | src/pages/api/users/index.ts:66-67 | trimming twice is trimming once |
| JsText.Split | src/libs/auth.ts:76-77 | `split` on one character yields at least one piece, and no piece contains the separator |
| JsText.JoinSplit | src/libs/auth.ts:76-77 | joining the pieces of a split with the separator gives back the original string |
| JsText.SplitJoin | src/libs/auth.ts:76-77 | splitting a join of separator-free pieces gives back the pieces |
| JsText.SplitSeveralIff | src/libs/auth.ts:77 | a split has two or more pieces exactly when the separator occurs |
| JsText.SplitAppend | src/pages/api/auth/me.ts:25 | appending a separator and a separator-free tail appends one piece |
| JsText.Includes | src/libs/middleware/errorHandler.ts:30-50 | `includes` holds exactly when the substring starts at some position |
| JsText.ToLower | src/pages/api/auth/login.ts:40 | lower-casing keeps the length and maps each character on its own |
| JsText.LowerKeepsNoWhitespace | src/pages/api/users/index.ts:67 | a whitespace-free string stays whitespace-free when lower-cased, so trimming it afterwards changes nothing |
| JsText.NatToDecimal | src/libs/auth.ts:56 | the rendering of a number in a template literal: non-empty, all digits, no leading zero |
| JsText.ParseIntRendering | src/pages/api/invoices/index.ts:173-174 | `parseInt` reads back every rendered integer, negative ones included |
| JsValues.IndexKeys | src/libs/middleware/databaseLogging.ts:65 | `Object.keys` of an array or string has one key per element |
| Validation.CheckField | src/libs/middleware/validation.ts:61-114 | the per-field loop body pushes exactly the violations the rule chain specifies |
| Validation.ValidateFields | src/libs/middleware/validation.ts:57-115 | the loop over the schema collects every field's violations in schema order; a nullish body throws on the first read |
| Validation.FieldRules | src/libs/middleware/validation.ts:64-81 | a required field that is undefined, null or "" gets only the required message; an optional nullish field gets none; a wrong type gets only the type message; no field gets more than four |
| Validation.OptionalEmptyStringIsChecked | src/libs/middleware/validation.ts:70-91 | an optional string field sent as "" is not skipped and fails a positive `minLength` |
| Validation.BoundsInclusive | src/libs/middleware/validation.ts:84-101 | length and range bounds are inclusive; a bound of 0 is falsy and never checked for lengths |
| Validation.GatherAppend | src/libs/middleware/validation.ts:60-115 | the messages of a concatenated schema are the concatenation of the parts' messages |
| Validation.SchemaErrorsAppend | src/libs/middleware/validation.ts:60-115 | the same for the real per-field rules |
| Validation.GatherEmptyIff | src/libs/middleware/validation.ts:118 | no message is collected exactly when every field's check yields none |
| Validation.SchemaErrorsEmptyIffFieldsClean | src/libs/middleware/validation.ts:118-135 | a body is accepted exactly when every field of the schema is clean |
| Validation.AcceptedFieldHasType | src/libs/middleware/validation.ts:64-81 | in an accepted body every required typed field is present and has that type |
| Validation.DecideCases | src/libs/middleware/validation.ts:30-135 | a blank body gives "no data", unparsable JSON gives "invalid JSON", a nullish body with a non-empty schema crashes, messages give "invalid", and otherwise the parsed body is accepted, each case exactly |
| Validation.RespondCases | src/libs/middleware/validation.ts:30-147 | only an accepted body reaches the handler, as `validatedData`; a handler that throws becomes a 500; rejections are 400 with the messages; nothing escapes |
| Validation.AcceptedUserEmailIsClean | src/libs/middleware/validation.ts:193-201 | an email accepted by the user schema contains no whitespace |
| Validation.CollectSingle | src/libs/middleware/validation.ts:60-115 | a one-field schema collects that field's violations |
| Validation.EmptyNameErrors | src/libs/middleware/validation.ts:191-204 | `{"name": ""}` against the user schema fails all four required fields, in order |
| Validation.EmptyNameRejected | src/libs/middleware/validation.ts:118-129 | that body is answered with the four "es requerido" messages |
| Validation.RequiredMessages | src/libs/middleware/validation.ts:65 | the required messages read "<field> es requerido" |
| ErrorHandler.ClassifyIsFirstMatch | src/libs/middleware/errorHandler.ts:18-54 | the status and message come from the first rule of the chain that applies |
| ErrorHandler.GenericIffNoRule | src/libs/middleware/errorHandler.ts:15-54 | the answer is the generic 500 exactly when no rule applies, and always for a thrown non-Error |
| ErrorHandler.TimeoutBeatsToken | src/libs/middleware/errorHandler.ts:30-38 | a message mentioning both "timeout" and "token" is a 503, not a 401 |
| ErrorHandler.ErrorResponse | src/libs/middleware/errorHandler.ts:56-68 | the body starts with success false and the chosen message; outside development it has nothing else; in development it adds the error text and, exactly when there is one, the stack |
| ErrorHandler.HandledCases | src/libs/middleware/errorHandler.ts:7-71 | a returned response passes unchanged, a throw becomes the error response, and the wrapped handler never throws |
| ErrorHandler.DatabaseErrorResponse | src/libs/middleware/errorHandler.ts:82-111 | only a CastError (400) and a duplicate-key MongoError (409) are answered here |
| ErrorHandler.DatabaseCases | src/libs/middleware/errorHandler.ts:76-117 | a CastError gives 400, a duplicate key gives 409 naming the first key field, and everything else is rethrown to the general handler; nothing escapes |
| ErrorHandler.DuplicateFieldCases | src/libs/middleware/errorHandler.ts:99 | the field named is the first key of `keyPattern`, or "campo" without one |
| DatabaseLogging.ActionFor | src/libs/middleware/databaseLogging.ts:139-155 | each HTTP method maps to its action, GET splitting on the `id` parameter, and any other method maps to "unknown", each direction proved |
| DatabaseLogging.LevelFor | src/libs/middleware/databaseLogging.ts:35-41 | error exactly from 500, warning exactly for 400-499, info below 400 |
| DatabaseLogging.LevelMonotone | src/libs/middleware/databaseLogging.ts:35-41 | a higher status never gets a less severe level |
| DatabaseLogging.EntityNameRecordedOnlyOnCreate | src/libs/middleware/databaseLogging.ts:63-70 | `entityName` is recorded exactly on a create whose validated data has a truthy name |
| DatabaseLogging.WithDatabaseLogging | src/libs/middleware/databaseLogging.ts:9-127 | the handler's outcome is passed on unchanged; a returned response whose log row is saved appends exactly that row, built from the context as passed in; a throw or a failed save leaves the log as it was |
| DatabaseLogging.WithCrudDatabaseLogging | src/libs/middleware/databaseLogging.ts:132-160 | the same, with the action derived from the method |
| Middlewares.CombineOutermost | src/libs/middleware/index.ts:10-14 | `reduceRight` makes the first middleware the outermost wrapper |
| Middlewares.CombineAppend | src/libs/middleware/index.ts:10-14 | combining a concatenation is nesting the combinations |
| Middlewares.RoleValidationLayers | src/libs/middleware/index.ts:44-59 | the pushes build the layer list of `withRoleValidation` |
| Middlewares.WriteOperationLayers | src/libs/middleware/index.ts:76-91 | the pushes build the layer list of `withWriteOperation` |
| Middlewares.ReadOnlyIsStandardCrud | src/libs/middleware/index.ts:64-71 | `withReadOnly` is the same chain as `withStandardCRUD` |
| Middlewares.PresetOrder | src/libs/middleware/index.ts:31-91 | in every preset, authentication comes before the role check, which comes before validation, and the database error handler is innermost; the optional layers are present exactly when asked for |
| Middlewares.BuildAfterAuth | src/libs/middleware/index.ts:31-39 | the two loggers pass through, so a preset behaves as its authentication gate around the rest |
| Middlewares.UnauthenticatedStopsAtGate | src/libs/middleware/index.ts:19-39 | an unauthenticated request gets the gate's answer and the handler does not run |
| Middlewares.ForbiddenStopsBeforeValidation | src/libs/middleware/index.ts:44-59 | a caller whose role is not allowed is refused before the body is validated |
| Middlewares.AuthenticatedReachesValidation | src/libs/middleware/index.ts:31-39 | an authenticated request is validated with the caller attached, and the handler runs inside the database error handler |
| UserStore.FirstWhere | src/pages/api/users/index.ts:47 | a lookup returns the first matching record, and none exactly when nothing matches |
| UserStore.FindCases | src/pages/api/auth/me.ts:59 | lookup by email or id succeeds exactly when a record has it, and returns that record |
| Users.CheckRolePermissions | src/pages/api/users/index.ts:9-20 | superadmin may create any role; admin may create admin, adminSucursal or user; adminSucursal may create adminSucursal or user; every other role may create none |
| Users.PermissionsFollowRank | src/pages/api/users/index.ts:9-20 | the matrix is "creator known, above user, and target not ranked above the creator", both directions |
| Users.PermissionsNested | src/pages/api/users/index.ts:9-20 | each higher role may create whatever a lower one may, and user creates nothing |
| Users.NoCreationAbove | src/pages/api/users/index.ts:9-20 | no role may create a role ranked above itself |
| Users.StoredUser | src/pages/api/users/index.ts:65-70 | the stored user has the trimmed name, the lower-cased and trimmed email, the hashed password and the requested role |
| Users.CreationFor | src/pages/api/users/index.ts:33-70 | 403 exactly when the matrix forbids the role; 409 exactly when it allows it and the lower-cased email is stored; otherwise the stored user |
| Users.CreateUser | src/pages/api/users/index.ts:27-91 | the route answers per the decision and appends the new user exactly when it is created |
| Users.SecondCreationIsDuplicate | src/pages/api/users/index.ts:47-70 | after a creation, creating the same email again is a 409 |
| Cookies.TokenLifetimesMatchCookies | src/libs/auth.ts:11-12 | the "15m" and "7d" lifetimes of the issued pair are, in seconds, exactly the Max-Age of the access and the refresh cookie, 900 and 604800 |
| Tokens.VerifyToken | src/libs/auth.ts:206-236 | a valid token gives its claims; expiry, malformation and other failures give the "expirado", "inválido" and "Error verificando" messages |
| Tokens.OnlyExpiryTriggersRefresh | src/libs/auth.ts:329-331 | the message `requireAuth` tests for is produced exactly by an expired access token |
| Tokens.ExtractIff | src/libs/auth.ts:238-258 | a token is extracted exactly when the header is the scheme, one space and a space-free token |
| Tokens.SchemesDisjoint | src/libs/auth.ts:238-258 | no header yields both a Bearer and a Refresh token |
| Cookies.SetCookiePieces | src/libs/auth.ts:55-62 | a written cookie splits on ';' into its name=value, Max-Age and attribute pieces |
| Cookies.AccessMaxAgeDigits | src/libs/auth.ts:56 | the access cookie's Max-Age renders as 900 |
| Cookies.RefreshMaxAgeDigits | src/libs/auth.ts:61 | the refresh cookie's Max-Age renders as 604800 |
| Cookies.AccessCookieLifetime | src/libs/auth.ts:55-58 | the access cookie carries Max-Age=900 (seconds), right after its value |
| Cookies.RefreshCookieLifetime | src/libs/auth.ts:60-63 | the refresh cookie carries Max-Age=604800 |
| Cookies.PiecesAttributes | src/libs/auth.ts:55-63 | Path=/, HttpOnly and SameSite=Strict are always present, and Secure exactly when asked for |
| Cookies.SessionCookieAttributes | src/libs/auth.ts:55-63 | both session cookies have those attributes, with Secure exactly in production |
| Cookies.ResponseHeaders.Set | src/libs/auth.ts:57 | `headers.set` replaces the one value under its name |
| Cookies.SetAccessTokenCookie | src/libs/auth.ts:55-58 | the headers now hold the access cookie under Set-Cookie, with nothing else changed |
| Cookies.SetRefreshTokenCookie | src/libs/auth.ts:60-63 | the headers now hold the refresh cookie under Set-Cookie, with nothing else changed |
| Cookies.ClearTokensCookies | src/libs/auth.ts:65-70 | Set-Cookie holds both expiring cookies joined by ", " |
| Cookies.SetTokensCookies | src/libs/auth.ts:90-93 | after both sets, Set-Cookie holds only the refresh cookie |
| Cookies.SegmentPair | src/libs/auth.ts:77 | `[key, value]` of `trim().split('=')`: neither holds '=', and the value is undefined exactly when the trimmed segment has no '=' |
| Cookies.CookieEntry | src/libs/auth.ts:77-80 | a segment assigns only when its key and value are both non-empty |
| Cookies.JarDomain | src/libs/auth.ts:76-82 | a name is in the parsed record exactly when some segment assigns it |
| Cookies.JarValues | src/libs/auth.ts:76-82 | every recorded value was assigned by some segment |
| Cookies.JarLastWins | src/libs/auth.ts:76-82 | the last segment assigning a name decides its value |
| Cookies.CookieJarFiltered | src/libs/auth.ts:76-82 | recorded names and values are non-empty and free of '=' |
| Cookies.AssignCookies | src/libs/auth.ts:76-82 | the `reduce` loop builds the record specified segment by segment |
| Cookies.GetTokenFromCookies | src/libs/auth.ts:72-88 | the two tokens are the record's accessToken and refreshToken entries, none without a header |
| Cookies.TwoCookieJar | src/libs/auth.ts:72-88 | a header "a=x; b=y" parses to exactly those two entries |
| Cookies.TwoCookieRoundTrip | src/libs/auth.ts:72-88 | each value of a two-cookie header is read back under its own name |
| Cookies.SessionCookieRoundTrip | src/libs/auth.ts:72-88 | a header carrying both session cookies gives back both tokens |
| AuthSession.RefreshHolder | src/libs/auth.ts:377-380 | the user a refresh token identifies is the one its id names, and only when that user stores exactly this token |
| AuthSession.RotatedUsers | src/libs/auth.ts:393-395 | rotation keeps the number of users |
| AuthSession.RefreshAccessToken | src/libs/auth.ts:369-410 | the method answers per the refresh decision and stores the new refresh token on the holder |
| AuthSession.RefreshSucceedsIff | src/libs/auth.ts:375-401 | a refresh succeeds exactly when the token verifies, its id names a user, and that user stores the same token; a failed verification reports its message |
| AuthSession.RotationChangesOnlyToken | src/libs/auth.ts:393-395 | rotation changes only the holder, and only its refresh token |
| AuthSession.RotationRejectsOldToken | src/libs/auth.ts:380-395 | after a rotation the old token, if different, is refused, and the newly issued token is accepted |
| AuthSession.ValidateAgreesWithRefresh | src/libs/auth.ts:412-445 | `validateRefreshToken` succeeds exactly when a refresh would, with the same user or the same error |
| AuthSession.RequireAuth | src/libs/auth.ts:298-367 | the method answers per the decision, and changes the users only by a refresh's rotation |
| AuthSession.RequireAuthWithoutRefresh | src/libs/auth.ts:308-357 | no access cookie gives 401; a valid one authorizes its claims without new tokens; a malformed or failing one gives 401 with its message; without a refresh attempt nothing is stored |
| AuthSession.RequireAuthWithRefresh | src/libs/auth.ts:329-349 | with an expired access token and a refresh cookie, success authorizes the refreshed user with the new tokens, and failure is 401 "Sesión expirada" with `shouldRefresh` |
| AuthSession.RequireAuthAsWrittenNeverRefreshes | src/libs/auth.ts:329-349 | with the refresh as written, every request reaching the refresh branch is 401 "Sesión expirada" with `shouldRefresh`, even when its refresh cookie is the one stored on its user, which the corrected refresh authorizes with new tokens and rotates |
| AuthSession.CheckAccessCookie | src/libs/auth.ts:96-129 | the check is valid exactly when it carries a user, and exactly when it has no error |
| AuthSession.PlainCheckAgreesWithRequireAuth | src/libs/auth.ts:264-296 | `isAuthenticated` is true exactly when `requireAuth` authorizes without refreshing, with the same user; it agrees with `verifyAccessTokenFromCookies` |
| Hex.HexDigit | src/pages/api/auth/login.ts:59 | a digit below 16 renders as a lower-case hex character |
| Hex.ByteToRadix16 | src/pages/api/auth/login.ts:59 | `toString(16)` of a byte has one or two characters |
| Hex.PadStart2 | src/pages/api/auth/login.ts:59 | `padStart(2, '0')` left-pads short strings with zeros and leaves others alone |
| Hex.HexByteDigits | src/pages/api/auth/login.ts:59 | each byte becomes exactly its high and low hex digits |
| Hex.HexValue | src/pages/api/auth/login.ts:58-60 | reading a hex character is defined exactly on lower-case hex, and inverts HexDigit |
| Hex.ToHexShape | src/pages/api/auth/login.ts:58-60 | the digest string has two lower-case hex characters per byte |
| Hex.HexRoundTrip | src/pages/api/auth/login.ts:58-60 | the hex string decodes back to the digest |
| Hex.HexInjective | src/pages/api/auth/login.ts:58-64 | two digests with the same hex string are equal, so comparing hex strings compares digests |
| Login.LoginDecision | src/pages/api/auth/login.ts:13-74 | a match means a parsed body whose string email, lower-cased, finds exactly the matched user, whose stored password is the hex digest of the submitted one; every refusal is 400, 401 or 404, and 401 is "Contraseña incorrecta" |
| Login.PasswordDecides | src/pages/api/auth/login.ts:40-74 | once the email finds a user, that user is matched exactly when the digest equals its stored password, and the answer is 401 otherwise |
| Login.LoginUsers | src/pages/api/auth/login.ts:77 | the lastLogin update keeps the number of users |
| Login.HandleLogin | src/pages/api/auth/login.ts:6-114 | the route answers per the decision and records the login time on the matched user |
| Login.BlankBodyRejected | src/pages/api/auth/login.ts:13-23 | a blank body gets 400 "No se recibieron datos" and changes nothing |
| Login.LookupByLowerCaseEmail | src/pages/api/auth/login.ts:28-52 | a falsy email or password is 400; otherwise 404 exactly when no user has the lower-cased email |
| Login.LastLoginOnlyOnMatch | src/pages/api/auth/login.ts:64-77 | only a matched user is changed, and only its lastLogin; a wrong password answers 401 |
| Login.SuccessfulLogin | src/pages/api/auth/login.ts:40-101 | 200 exactly when the password matches and the user's company reference names a stored company; without a reference, or with a dangling one, a matched login is 500; a 200 carries the session cookie made from the returned user, which has exactly the keys id, name, email, role and companyId, holding the matched user's id, name, email and role and the populated company's `toString()` |
| Login.AuthUserOf | src/pages/api/auth/login.ts:80-86 | the `authUser` object of a user with a stored company holds that user's values under exactly those five keys |
| MeRoute.RawJarKeepsEveryKey | src/pages/api/auth/me.ts:25-29 | every segment's key ends up in the record, empty keys included |
| MeRoute.AssignSegments | src/pages/api/auth/me.ts:25-29 | the `reduce` loop builds the record specified segment by segment |
| MeRoute.ParseCookieHeader | src/pages/api/auth/me.ts:25-29 | the parse of the whole header is that record |
| MeRoute.HandleMe | src/pages/api/auth/me.ts:6-103 | the route answers per the decision, reading the users and companies without changing them |
| UserStore.Populate | src/pages/api/auth/login.ts:40 | `.populate('company')` yields undefined exactly without a reference, and the stored document exactly when the reference names one |
| MeRoute.UserOutcomeFound | src/pages/api/auth/me.ts:59-90 | a verified id gets 200 exactly when a user has it, with that user; its companyId is the populated document's `toString()` or null, and its company the document, null for a dangling reference, undefined without one |
| MeRoute.MeUserCompany | src/pages/api/auth/me.ts:76-83 | the user in the body carries those company entries |
| MeRoute.MeSucceedsIff | src/pages/api/auth/me.ts:11-90 | 200 exactly when the header has a non-empty `fabrika_token` that verifies to the id of a stored user; then the body is that user with its populated company entries |
| MeRoute.EmptyValueSegment | src/pages/api/auth/me.ts:26-27 | `fabrika_token=` assigns "" here but nothing in the parse of src/libs/auth.ts |
| MeRoute.EmptyTokenSegmentWins | src/pages/api/auth/me.ts:25-42 | a trailing `fabrika_token=` overrides an earlier token and the answer is 401, while the other parse ignores it |
| Production.CheckLine | src/pages/api/recipes/produce.ts:57-88 | a verified line draws from a stored raw material, with at most one usage recorded |
| Production.CheckStock | src/pages/api/recipes/produce.ts:55-90 | every recorded usage names a stored raw material, with its stock as read before production |
| Production.CheckStockIff | src/pages/api/recipes/produce.ts:55-90 | the check passes exactly when every line with a truthy material id names a stored material that covers quantity × line quantity; lines without one are skipped |
| Production.EmptyIdSkipped | src/pages/api/recipes/produce.ts:57 | a line whose material id is the empty string is skipped exactly like one without an id |
| Production.CheckStockDraws | src/pages/api/recipes/produce.ts:71-88 | the usages recorded are exactly the required quantities of the lines, in order |
| Production.CheckStockFailure | src/pages/api/recipes/produce.ts:55-90 | a failure is the first failing line's answer, with all earlier lines passing |
| Production.FailureSticks | src/pages/api/recipes/produce.ts:59-82 | once a prefix fails, later lines do not change the answer |
| Production.Deduct | src/pages/api/recipes/produce.ts:93-98 | deduction keeps the set of raw materials |
| Production.DeductTotals | src/pages/api/recipes/produce.ts:93-98 | each material's stock drops by the total its usages require and nothing else changes |
| Production.FindIngredient | src/pages/api/recipes/produce.ts:101 | `findOne` by name returns the first ingredient with that name, or none when none has it |
| Production.CreditOutput | src/pages/api/recipes/produce.ts:101-119 | an existing ingredient named after the recipe gains the batch and nothing else changes; otherwise one new ingredient holding the batch is appended |
| Production.ProduceDecision | src/pages/api/recipes/produce.ts:15-90 | a production only records usages of stored raw materials |
| Production.Inventory.DeductStock | src/pages/api/recipes/produce.ts:93-98 | the `$inc` loop leaves the materials as the deduction specifies and the ingredients untouched |
| Production.Inventory.CreditOutput | src/pages/api/recipes/produce.ts:101-119 | the ingredients are credited as specified and the materials untouched |
| Production.Inventory.Produce | src/pages/api/recipes/produce.ts:8-152 | the route answers per the decision and leaves both collections as the decision specifies |
| Production.VerifyStock | src/pages/api/recipes/produce.ts:55-90 | the verification loop computes the stock check |
| Production.RefusalChangesNothing | src/pages/api/recipes/produce.ts:15-90 | every refusal leaves both collections unchanged, and a missing or non-positive quantity is 400 |
| Production.ProductionIff | src/pages/api/recipes/produce.ts:15-98 | production happens exactly when the quantity is positive, the recipe exists with ingredients, and every line is covered; then each material drops by exactly what the batch requires |
| Production.DuplicateMaterialOverdrawn | src/pages/api/recipes/produce.ts:55-98 | a recipe listing one material twice passes the per-line check against the stock read beforehand and drives that stock negative |
| Invoices.SubtotalAppend | src/pages/api/invoices/index.ts:82 | the item sum of a concatenation is the sum of the parts |
| Invoices.SubtotalNaNIff | src/pages/api/invoices/index.ts:82 | the item sum is NaN exactly when some line's quantity or unit price is not numeric |
| Invoices.CreateError.Status | src/pages/api/invoices/index.ts:28-107 | a duplicate number is 409 and every other refusal is 400 |
| Invoices.StoredInvoice | src/pages/api/invoices/index.ts:110-125 | the stored invoice has the trimmed number, defaults of 0 for tax and discount, status "pending", and the caller as creator |
| Invoices.AmountError | src/pages/api/invoices/index.ts:81-107 | no error exactly when neither the subtotal nor the total differs by more than 0.01 from the computed one (a NaN sum differs from nothing); an error is one of the two mismatches |
| Invoices.InvoiceTable.CheckAmounts | src/pages/api/invoices/index.ts:81-107 | the loop over the items accumulates the `reduce` sum, and with the two comparisons it decides that check |
| Invoices.InvoiceTable.NumberStored | src/pages/api/invoices/index.ts:27 | the scan finds the number exactly when an invoice has it |
| Invoices.InvoiceTable.CreateInvoice | src/pages/api/invoices/index.ts:8-162 | the route answers per the decision and appends the invoice exactly when it is created |
| Invoices.AcceptedAmounts | src/pages/api/invoices/index.ts:26-125 | a created invoice has a new number, a known supplier and branch, items, and amounts that pass both tolerance checks; unless some line is not numeric, the declared amounts then agree with each other within 0.02 |
| Invoices.NotNumericLineSkipsAmountChecks | src/pages/api/invoices/index.ts:81-107 | one line with a missing or non-numeric quantity or unit price makes both amount checks pass whatever the declared subtotal and total, so the invoice is created once its number, supplier and branch pass |
| Invoices.RejectionOrder | src/pages/api/invoices/index.ts:26-107 | duplicate number, unknown supplier, unknown branch and no items are tested in that order, each refusal exactly when the earlier checks pass and its own fails |
| Invoices.SecondInvoiceIsDuplicate | src/pages/api/invoices/index.ts:27-36 | after a creation, the same trimmed number is refused with 409 |
| Invoices.FiltersExact | src/pages/api/invoices/index.ts:177-181 | a filter is set exactly for a non-empty status, supplier or branch parameter, to that value |
| Invoices.CountMatching | src/pages/api/invoices/index.ts:194 | the count is at most the number of invoices |
| Invoices.CeilDivLeast | src/pages/api/invoices/index.ts:227 | `Math.ceil(total / limit)` is the least number of pages covering the total |
| Invoices.PageBlock | src/pages/api/invoices/index.ts:223-228 | skip is defined exactly when page and limit parse, and the page count exactly when the limit is a non-zero number |
| Invoices.Paginate | src/pages/api/invoices/index.ts:173-175 | the pagination reports the total it was given |
| Invoices.ListInvoices | src/pages/api/invoices/index.ts:166-235 | the filter is the one built from the query and the pagination is the query's page and limit over the total; the total counts the invoices matching the filter, and all of them without one |
| Invoices.CountAllWithoutFilter | src/pages/api/invoices/index.ts:194 | with no filters every invoice is counted |
| Invoices.DefaultPagination | src/pages/api/invoices/index.ts:173-174 | without parameters the page is 1, the limit 10, skip 0, and the page count is the total divided by 10, rounded up |
| Invoices.PaginationCovers | src/pages/api/invoices/index.ts:175-227 | for a page from 1 and a positive limit, skip is non-negative and the page count is the least covering the total |
| Recipes.CheckItem | src/pages/api/recipes/index.ts:24-48 | an item passes only with a truthy rawMaterialId, quantity and unit, and an existing raw material |
| Recipes.FirstFailureIff | src/pages/api/recipes/index.ts:22-50 | no failure exactly when every item passes; otherwise the failure is the first failing item's |
| Recipes.ZeroQuantityIsMalformed | src/pages/api/recipes/index.ts:24 | a quantity of 0 is falsy and refused as malformed |
| Recipes.CheckIngredients | src/pages/api/recipes/index.ts:22-50 | the loop over the items finds the first failure |
| Recipes.NameStored | src/pages/api/recipes/index.ts:53 | the scan finds the name exactly when a recipe has it |
| Recipes.NewRecipe | src/pages/api/recipes/index.ts:67-76 | the stored recipe has the text fields trimmed, the other fields as given, and is active |
| Recipes.RecipeTable.CreateRecipe | src/pages/api/recipes/index.ts:7-101 | the route answers per the decision and appends the recipe exactly when it is created |
| Recipes.NonArraySkipsIngredientChecks | src/pages/api/recipes/index.ts:22 | ingredients that are not an array are never looked up, so only the name can refuse |
| Recipes.IngredientsBeforeName | src/pages/api/recipes/index.ts:21-64 | creation happens exactly when every ingredient passes and the trimmed name is new; a 404 names the first item whose raw material is missing |
| Recipes.CreatedRecipe | src/pages/api/recipes/index.ts:66-78 | a created recipe is the trimmed new recipe |
| Recipes.TakenNameRefused | src/pages/api/recipes/index.ts:52-64 | a taken trimmed name is refused with 409 |
| Recipes.SecondRecipeIsDuplicate | src/pages/api/recipes/index.ts:52-78 | after a creation, the same trimmed name is refused |
| CompanyModel.DaysInMonth | src/models/Company.ts:106 | months have 28 to 31 days |
| CompanyModel.AddMonths | src/models/Company.ts:105-106 | `setMonth(getMonth() + months)` gives a valid date in the target month, or in the next one when the day overflows |
| CompanyModel.AddNoMonths | src/models/Company.ts:106 | adding zero months changes nothing |
| CompanyModel.AddMonthsOrder | src/models/Company.ts:105-106 | the result is not before the start exactly when the months are non-negative |
| CompanyModel.Company.constructor | src/models/Company.ts:28-86 | a new company has an active subscription starting now, no end date, amount 0, payment pending, and is active |
| CompanyModel.Company.RenewSubscription | src/models/Company.ts:102-111 | renewal makes the subscription active and paid from now, ending and next due the given months later (default 1), leaves every other field unchanged, and is active now exactly when the months are non-negative |
| CompanyModel.InactiveStatusNeverActive | src/models/Company.ts:89-92 | a status other than active is never an active subscription |
| CompanyModel.ActiveUntilEndDate | src/models/Company.ts:89-99 | an active status is active up to and including its end date, and always without one |

## Left out

- JSON.parse, SHA-256, JWT signing and verification, bcrypt, `createSessionCookie`, `generateToken` and `verifyToken`: these are parameters of the model. src/libs/middleware/auth.ts, which defines the last three together with `withAuth` and `withRole`, is not part of this model. Those two gates are modelled by an authentication function and fixed unauthorized and forbidden responses.
- `withLogging` and `withCRUDLogging` (src/libs/middleware/logging.ts) only write to the console, so they are modelled as layers that pass every outcome through.
- Console output, `connectToMongoDB`, durations and timestamps in log rows, and the log message text are not modelled.
- Concurrency: each request is atomic over the collections; interleaved requests are not modelled.
- Numbers are exact reals, not IEEE doubles. The 0.01 tolerance of the invoice checks and the products of quantities are therefore computed without rounding. Only the invoice amount check carries NaN, because a missing item field reaches arithmetic there.
- Strings are sequences of characters, not UTF-16 code units. `toLowerCase` folds only ASCII letters.
- Regular-expression patterns are predicates carried by the rule; the user email pattern is written out as one.
- HTTP header names are matched exactly; case-insensitive header lookup is not modelled.
- A `Date` is a local calendar reading without time zone or daylight-saving changes. One `now` stands for every `new Date()` of a call.
- CompanyModel.Company.constructor: does not apply the schema's `trim` and `lowercase` setters to the given strings.
- Invoice listing: the sort by date, `skip`/`limit` slicing of the result, `populate`, and the conversion of dates are not modelled. The listing's pagination arithmetic and filter count are.
- The GET listings of users (src/pages/api/users/index.ts:95-118) and recipes (src/pages/api/recipes/index.ts:105-157), including the raw-material enrichment of recipes, are not modelled: they read without deciding anything.
- `verifyPassword` (src/pages/api/users/index.ts:23-25) is a bcrypt comparison, which the model leaves opaque.
- Users.CreationFor, Users.CreateUser and Users.SecondCreationIsDuplicate: the save's schema validation is not modelled. src/models/User.ts:24 marks `company` as required and `createUser` does not set it (src/pages/api/users/index.ts:65-70), so `save()` at src/pages/api/users/index.ts:72 throws a ValidationError, which the error-handling layer answers with 400, once the body is read where validation stores it. What these members call a creation is what the route does once the document passes validation; the 201 answer is not promised for the route as written.
- The 201 response body of user creation is modelled without its `createdAt` field, which the database fills in.
- Non-numeric `quantity` values in produce.ts are not coerced. The quantity is either absent or a number.
- `withActionDatabaseLogging` (src/libs/middleware/databaseLogging.ts:165-169) is `withDatabaseLogging` with the same arguments, so DatabaseLogging.WithDatabaseLogging models both.
- The months argument of `renewSubscription` is an integer; fractional months are not modelled.
- The `User` document of src/models/User.ts declares no `refreshToken` field. The model's user record has one, because the refresh logic of src/libs/auth.ts reads and writes it.
- Recipes.RecipeTable.CreateRecipe, Recipes.IngredientsBeforeName, Recipes.CreatedRecipe and Recipes.SecondRecipeIsDuplicate: the save's schema validation is not modelled. src/models/Recipe.ts:31-32 marks `company` as required and `createRecipe` does not set it, so `save()` at src/pages/api/recipes/index.ts:78 throws a ValidationError, which the error-handling layer answers with 400, once the body is read where validation stores it. What these members call a creation is what the route does once the document passes validation; the 201 answer is not promised for the route as written.
- AuthSession.RequireAuth, AuthSession.RequireAuthWithRefresh and AuthSession.RequireAuthOutcome: these use the corrected refresh of the Findings row. With the refresh as written, the refresh branch never authorizes and never rotates; AuthSession.RequireAuthAsWrittenNeverRefreshes states that outcome.
- Invoice items that are not objects (`null` among the items, where reading `quantity` throws) are not modelled; an item is represented by what its quantity and unit price give under `*`, a number or NaN. Infinite values are not modelled.
- Users.CreationFor, Users.CreateUser, Users.SecondCreationIsDuplicate, Recipes.RecipeTable.CreateRecipe, Invoices.InvoiceTable.CreateInvoice, Invoices.AcceptedAmounts, Invoices.RejectionOrder, Invoices.SecondInvoiceIsDuplicate and Invoices.NotNumericLineSkipsAmountChecks: these read the validated body from the context, where `withValidation` stores it (src/libs/middleware/validation.ts:132). The handlers as written destructure `(request as any).validatedData` (src/pages/api/users/index.ts:30, src/pages/api/recipes/index.ts:19, src/pages/api/invoices/index.ts:24). Nothing sets that property, so the destructuring throws a TypeError. Its message matches no rule of the error layers (src/libs/middleware/errorHandler.ts:20-53, 82-114), so every valid POST to these three routes answers 500 "Error interno del servidor". The model states what the routes do once the body is read from the context.
- DatabaseLogging.WithDatabaseLogging, DatabaseLogging.WithCrudDatabaseLogging and DatabaseLogging.RowFor: the row's `dataKeys`, `entityName`, `entityCode` and `invoiceNumber` fields are read from the context as passed in. The source reads `context.validatedData` after the handler has run (src/libs/middleware/databaseLogging.ts:31, 63-76), so it sees the body that an inner `withValidation` wrote onto the same object. The model's contexts are values that an inner layer changes only on the way in. So for the invoice routes wrapped as `withCRUDDatabaseLogging('invoice')(withCRUDValidation(...))` (src/pages/api/invoices/index.ts:164, src/pages/api/invoices/[id].ts:249), the source's row carries those fields and the model's does not.
- DatabaseLogging.WithCrudDatabaseLogging: weaker than src/libs/middleware/databaseLogging.ts:132-160 in the same way. Its row lacks the fields taken from a body validated by an inner layer.
- Invoices.StoredInvoice: an explicit `null` taxAmount or discountAmount passes validation's optional-field skip, and the source stores `null`, because the `= 0` defaults of src/pages/api/invoices/index.ts:19-20 apply only to `undefined`. The model has no `null` for these fields and stores 0. The amount check is unaffected, because `null` counts as 0 in the total at line 83.
- Database failures inside routes (a throwing `save` or lookup) are modelled only where a lookup is a parameter that may throw (recipe ingredients). Elsewhere the store always answers.

## Findings

| source | as written | input that shows it | evidently intended | confidence | as-written member | corrected member |
|---|---|---|---|---|---|---|
| src/libs/auth.ts:378 | `refreshAccessToken` calls `findById` on the imported typegoose class `User` (src/libs/auth.ts:5), which has no such static method. The call throws a TypeError that the catch turns into a failed refresh. `validateRefreshToken` does the same at line 421. | any refresh token that verifies and is stored on its user: the refresh still fails, and `requireAuth` answers 401 "Sesión expirada" | look the user up in the users collection (`UserModel.findById`), accept the token stored there and rotate it | not executed | AuthSession.RefreshAsWrittenNeverSucceeds | AuthSession.RefreshSucceedsIff |
