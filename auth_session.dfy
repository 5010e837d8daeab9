/**
 * The session decisions of `AuthMiddleware` in src/libs/auth.ts: checking
 * the access cookie, and `requireAuth`, which falls back to the refresh
 * cookie when the access token has expired and then rotates the refresh
 * token stored with the user.
 */
module AuthSession {
  import opened Wrappers
  import opened JsText
  import opened Tokens
  import opened Cookies
  import opened UserStore

  /**
   * The JWT layer, which is not modelled: how `jwt.verify` judges a token
   * under the access and the refresh secret, and what `jwt.sign` issues.
   */
  datatype Jwt = Jwt(checkAccess: string -> JwtCheck, checkRefresh: string -> JwtCheck, sign: Payload -> (string, string))

  /** What `refreshAccessToken` resolves to. */
  datatype RefreshResult = RefreshOk(user: Payload, tokens: TokenPair) | RefreshFailed(error: string)

  const RefreshRejected := "Refresh token no válido"

  /** The payload built from a stored user. */
  function PayloadOf(u: UserRecord): Payload {
    Payload(u.id, u.email, u.name)
  }

  /**
   * The user whose stored refresh token is the presented one: the token
   * must verify, name an existing user, and equal what that user has stored.
   */
  function RefreshHolder(users: seq<UserRecord>, presented: string, jwt: Jwt): (i: Option<nat>)
    ensures i.Some? ==> i.value < |users| && users[i.value].refreshToken == Some(presented)
    ensures i.Some? ==> jwt.checkRefresh(presented).JwtValid? && FindById(users, jwt.checkRefresh(presented).claims.id) == i
  {
    match jwt.checkRefresh(presented)
    case JwtValid(claims) =>
      (match FindById(users, claims.id)
       case None => None
       case Some(k) => if users[k].refreshToken == Some(presented) then Some(k) else None)
    case _ => None
  }

  /** The result of `refreshAccessToken(presented)` against the users table. */
  function RefreshOutcome(users: seq<UserRecord>, presented: string, jwt: Jwt): RefreshResult {
    match VerifyRefreshToken(jwt.checkRefresh(presented))
    case VerifyError(message) => RefreshFailed(message)
    case Decoded(_) =>
      match RefreshHolder(users, presented, jwt)
      case None => RefreshFailed(RefreshRejected)
      case Some(k) => RefreshOk(PayloadOf(users[k]), GenerateTokenPair(PayloadOf(users[k]), jwt.sign))
  }

  /** The users table after `refreshAccessToken`: the holder's stored token replaced by the new one. */
  function RotatedUsers(users: seq<UserRecord>, presented: string, jwt: Jwt): (after: seq<UserRecord>)
    ensures |after| == |users|
  {
    match RefreshHolder(users, presented, jwt)
    case None => users
    case Some(k) =>
      var issued := GenerateTokenPair(PayloadOf(users[k]), jwt.sign).refreshToken;
      users[k := users[k].(refreshToken := Some(issued))]
  }

  /**
   * `refreshAccessToken(presented)`: verify, look the user up, compare the
   * stored token, and on success store the newly issued refresh token.
   */
  method RefreshAccessToken(table: UserTable, presented: string, jwt: Jwt) returns (r: RefreshResult)
    modifies table
    ensures r == RefreshOutcome(old(table.users), presented, jwt)
    ensures table.users == RotatedUsers(old(table.users), presented, jwt)
  {
    var verified := VerifyRefreshToken(jwt.checkRefresh(presented));
    if verified.VerifyError? {
      return RefreshFailed(verified.message);
    }
    var found := FindById(table.users, verified.claims.id);
    if found.None? || table.users[found.value].refreshToken != Some(presented) {
      return RefreshFailed(RefreshRejected);
    }
    var user := table.users[found.value];
    var payload := PayloadOf(user);
    var tokens := GenerateTokenPair(payload, jwt.sign);
    table.users := table.users[found.value := user.(refreshToken := Some(tokens.refreshToken))];
    r := RefreshOk(payload, tokens);
  }

  /** A refresh succeeds exactly when the token verifies and equals what its user has stored. */
  lemma RefreshSucceedsIff(users: seq<UserRecord>, presented: string, jwt: Jwt)
    ensures RefreshOutcome(users, presented, jwt).RefreshOk? <==>
            jwt.checkRefresh(presented).JwtValid?
            && FindById(users, jwt.checkRefresh(presented).claims.id).Some?
            && users[FindById(users, jwt.checkRefresh(presented).claims.id).value].refreshToken == Some(presented)
    ensures !jwt.checkRefresh(presented).JwtValid? ==>
            RefreshOutcome(users, presented, jwt) == RefreshFailed(VerifyRefreshToken(jwt.checkRefresh(presented)).message)
  {
  }

  /** Rotation touches only the holder's stored refresh token. */
  lemma RotationChangesOnlyToken(users: seq<UserRecord>, presented: string, jwt: Jwt, j: nat)
    requires j < |users|
    ensures RefreshHolder(users, presented, jwt) != Some(j) ==> RotatedUsers(users, presented, jwt)[j] == users[j]
    ensures RotatedUsers(users, presented, jwt)[j] == users[j].(refreshToken := RotatedUsers(users, presented, jwt)[j].refreshToken)
  {
  }

  /** A lookup by id gives the same answer in two tables whose records carry the same ids. */
  lemma {:induction false} FindByIdSameIds(a: seq<UserRecord>, b: seq<UserRecord>, id: string)
    requires |a| == |b| && forall j :: 0 <= j < |a| ==> a[j].id == b[j].id
    ensures FindById(a, id) == FindById(b, id)
  {
    if a != [] {
      FindByIdSameIds(a[1..], b[1..], id);
    }
  }

  /**
   * After a successful refresh, the presented token no longer works when
   * the new refresh token differs from it, and the new one does when it
   * verifies to the same user.
   */
  lemma RotationRejectsOldToken(users: seq<UserRecord>, presented: string, jwt: Jwt)
    requires RefreshOutcome(users, presented, jwt).RefreshOk?
    ensures var issued := RefreshOutcome(users, presented, jwt).tokens.refreshToken;
            var after := RotatedUsers(users, presented, jwt);
            (issued != presented ==> RefreshOutcome(after, presented, jwt).RefreshFailed?)
            && (jwt.checkRefresh(issued) == jwt.checkRefresh(presented) ==> RefreshOutcome(after, issued, jwt).RefreshOk?)
  {
    var k := RefreshHolder(users, presented, jwt).value;
    var after := RotatedUsers(users, presented, jwt);
    var id := jwt.checkRefresh(presented).claims.id;
    FindByIdSameIds(users, after, id);
  }

  /**
   * `refreshAccessToken` as written: it looks the user up through the
   * decorated `User` class rather than the model built from it, and that
   * class has no static `findById`; once the token verifies, the call throws
   * a TypeError and the catch turns it into a failed refresh.
   */
  const FindByIdTypeError := "User.findById is not a function"

  function RefreshOutcomeAsWritten(users: seq<UserRecord>, presented: string, jwt: Jwt): RefreshResult {
    match VerifyRefreshToken(jwt.checkRefresh(presented))
    case VerifyError(message) => RefreshFailed(message)
    case Decoded(_) => RefreshFailed(FindByIdTypeError)
  }

  /**
   * As written no refresh ever succeeds, even for the token its user has
   * stored, which the lookup through the model accepts.
   */
  lemma RefreshAsWrittenNeverSucceeds(users: seq<UserRecord>, presented: string, jwt: Jwt)
    ensures RefreshOutcomeAsWritten(users, presented, jwt).RefreshFailed?
    ensures RefreshHolder(users, presented, jwt).Some? ==>
            RefreshOutcome(users, presented, jwt).RefreshOk? && RefreshOutcomeAsWritten(users, presented, jwt) == RefreshFailed(FindByIdTypeError)
  {
  }

  /** `validateRefreshToken`: the same check, without rotation. */
  datatype Validation = ValidateOk(user: Payload) | ValidateFailed(error: string)

  function ValidateRefreshToken(users: seq<UserRecord>, presented: string, jwt: Jwt): Validation {
    match VerifyRefreshToken(jwt.checkRefresh(presented))
    case VerifyError(message) => ValidateFailed(message)
    case Decoded(_) =>
      match RefreshHolder(users, presented, jwt)
      case None => ValidateFailed(RefreshRejected)
      case Some(k) => ValidateOk(PayloadOf(users[k]))
  }

  /** Validation and refresh accept the same tokens, for the same user, and fail with the same message. */
  lemma ValidateAgreesWithRefresh(users: seq<UserRecord>, presented: string, jwt: Jwt)
    ensures ValidateRefreshToken(users, presented, jwt).ValidateOk? <==> RefreshOutcome(users, presented, jwt).RefreshOk?
    ensures ValidateRefreshToken(users, presented, jwt).ValidateOk? ==>
            ValidateRefreshToken(users, presented, jwt).user == RefreshOutcome(users, presented, jwt).user
    ensures ValidateRefreshToken(users, presented, jwt).ValidateFailed? ==>
            ValidateRefreshToken(users, presented, jwt).error == RefreshOutcome(users, presented, jwt).error
  {
  }

  // ---------------------------------------------------------------------------
  // requireAuth
  // ---------------------------------------------------------------------------

  /** What `requireAuth` resolves to; `shouldRefresh` absent is false. */
  datatype AuthResult =
    | Authorized(user: Payload, newTokens: Option<TokenPair>)
    | Denied(error: string, status: int, shouldRefresh: bool)

  const MissingAccessToken := "Access token de autenticación requerido"
  const SessionExpired := "Sesión expirada, por favor inicie sesión nuevamente"

  /** The branch `requireAuth` takes to the refresh: expired access token and a truthy refresh cookie. */
  predicate TriesRefresh(cookieHeader: Option<string>, jwt: Jwt) {
    var access := Get(CookieJar(cookieHeader), "accessToken");
    var refresh := Get(CookieJar(cookieHeader), "refreshToken");
    access.Some? && jwt.checkAccess(access.value).JwtExpired? && refresh.Some? && refresh.value != ""
  }

  /**
   * `requireAuth` with `refresh` standing for `refreshAccessToken`, so that
   * the refresh as written and the corrected one share the rest.
   */
  function RequireAuthWith(refresh: string -> RefreshResult, cookieHeader: Option<string>, jwt: Jwt): AuthResult {
    var access := Get(CookieJar(cookieHeader), "accessToken");
    var refreshCookie := Get(CookieJar(cookieHeader), "refreshToken");
    if access.None? then Denied(MissingAccessToken, 401, false)
    else
      match VerifyAccessToken(jwt.checkAccess(access.value))
      case Decoded(claims) => Authorized(claims, None)
      case VerifyError(message) =>
        if message == AccessExpiredMessage && refreshCookie.Some? && refreshCookie.value != "" then
          match refresh(refreshCookie.value)
          case RefreshOk(user, tokens) => Authorized(user, Some(tokens))
          case RefreshFailed(_) => Denied(SessionExpired, 401, true)
        else Denied(message, 401, false)
  }

  /** `requireAuth` over the corrected refresh, which the rest of the model uses. */
  function RequireAuthOutcome(users: seq<UserRecord>, cookieHeader: Option<string>, jwt: Jwt): AuthResult {
    RequireAuthWith(presented => RefreshOutcome(users, presented, jwt), cookieHeader, jwt)
  }

  /** `requireAuth` over the refresh as written. */
  function RequireAuthAsWritten(users: seq<UserRecord>, cookieHeader: Option<string>, jwt: Jwt): AuthResult {
    RequireAuthWith(presented => RefreshOutcomeAsWritten(users, presented, jwt), cookieHeader, jwt)
  }

  /**
   * As written, every request that reaches the refresh branch is refused
   * with 401 and `shouldRefresh`, and no stored token is rotated (the
   * refresh throws before its update), even when the refresh cookie is the
   * one its user has stored, for which the corrected refresh lets the
   * caller in with new tokens and stores the new refresh token.
   */
  lemma RequireAuthAsWrittenNeverRefreshes(users: seq<UserRecord>, cookieHeader: Option<string>, jwt: Jwt)
    requires TriesRefresh(cookieHeader, jwt)
    ensures RequireAuthAsWritten(users, cookieHeader, jwt) == Denied(SessionExpired, 401, true)
    ensures var refresh := Get(CookieJar(cookieHeader), "refreshToken").value;
            RefreshHolder(users, refresh, jwt).Some? ==>
              var k := RefreshHolder(users, refresh, jwt).value;
              var issued := GenerateTokenPair(PayloadOf(users[k]), jwt.sign);
              RequireAuthOutcome(users, cookieHeader, jwt) == Authorized(PayloadOf(users[k]), Some(issued))
              && RequireAuthUsers(users, cookieHeader, jwt)[k].refreshToken == Some(issued.refreshToken)
  {
    var refresh := Get(CookieJar(cookieHeader), "refreshToken").value;
    OnlyExpiryTriggersRefresh(jwt.checkAccess(Get(CookieJar(cookieHeader), "accessToken").value));
    RefreshAsWrittenNeverSucceeds(users, refresh, jwt);
  }

  /** The users table after `requireAuth`: rotated only when the refresh branch ran. */
  function RequireAuthUsers(users: seq<UserRecord>, cookieHeader: Option<string>, jwt: Jwt): seq<UserRecord> {
    if TriesRefresh(cookieHeader, jwt) then RotatedUsers(users, Get(CookieJar(cookieHeader), "refreshToken").value, jwt)
    else users
  }

  /** `requireAuth(request)`; `cookieHeader` is the request's Cookie header. */
  method RequireAuth(table: UserTable, cookieHeader: Option<string>, jwt: Jwt) returns (r: AuthResult)
    modifies table
    ensures r == RequireAuthOutcome(old(table.users), cookieHeader, jwt)
    ensures table.users == RequireAuthUsers(old(table.users), cookieHeader, jwt)
  {
    var accessToken, refreshToken := GetTokenFromCookies(cookieHeader);
    if accessToken.None? {
      return Denied(MissingAccessToken, 401, false);
    }
    var verified := VerifyAccessToken(jwt.checkAccess(accessToken.value));
    if verified.Decoded? {
      return Authorized(verified.claims, None);
    }
    OnlyExpiryTriggersRefresh(jwt.checkAccess(accessToken.value));
    if verified.message == AccessExpiredMessage && refreshToken.Some? && refreshToken.value != "" {
      var refreshed := RefreshAccessToken(table, refreshToken.value, jwt);
      if refreshed.RefreshOk? {
        return Authorized(refreshed.user, Some(refreshed.tokens));
      }
      return Denied(SessionExpired, 401, true);
    }
    r := Denied(verified.message, 401, false);
  }

  /**
   * Without an access cookie the answer is 401 and no refresh is tried; a
   * valid access token gives its user with no new tokens; a failure other
   * than expiry gives 401 with the verifier's message. None of these
   * touches the users table.
   */
  lemma RequireAuthWithoutRefresh(users: seq<UserRecord>, cookieHeader: Option<string>, jwt: Jwt)
    ensures var access := Get(CookieJar(cookieHeader), "accessToken");
            var r := RequireAuthOutcome(users, cookieHeader, jwt);
            (access.None? ==> r == Denied(MissingAccessToken, 401, false))
            && (access.Some? && jwt.checkAccess(access.value).JwtValid? ==> r == Authorized(jwt.checkAccess(access.value).claims, None))
            && (access.Some? && (jwt.checkAccess(access.value).JwtMalformed? || jwt.checkAccess(access.value).JwtFailed?) ==>
                  r == Denied(VerifyAccessToken(jwt.checkAccess(access.value)).message, 401, false))
    ensures !TriesRefresh(cookieHeader, jwt) ==> RequireAuthUsers(users, cookieHeader, jwt) == users
  {
    var access := Get(CookieJar(cookieHeader), "accessToken");
    if access.Some? {
      OnlyExpiryTriggersRefresh(jwt.checkAccess(access.value));
    }
  }

  /**
   * With an expired access token and a refresh cookie, the caller is let in
   * with new tokens exactly when the refresh succeeds; otherwise the answer
   * is 401 asking for a new login, with `shouldRefresh` set.
   */
  lemma RequireAuthWithRefresh(users: seq<UserRecord>, cookieHeader: Option<string>, jwt: Jwt)
    requires TriesRefresh(cookieHeader, jwt)
    ensures var refresh := Get(CookieJar(cookieHeader), "refreshToken").value;
            var r := RequireAuthOutcome(users, cookieHeader, jwt);
            (RefreshOutcome(users, refresh, jwt).RefreshOk? ==>
               r == Authorized(RefreshOutcome(users, refresh, jwt).user, Some(RefreshOutcome(users, refresh, jwt).tokens)))
            && (RefreshOutcome(users, refresh, jwt).RefreshFailed? ==> r == Denied(SessionExpired, 401, true))
  {
    OnlyExpiryTriggersRefresh(jwt.checkAccess(Get(CookieJar(cookieHeader), "accessToken").value));
  }

  // ---------------------------------------------------------------------------
  // Checking the access cookie alone
  // ---------------------------------------------------------------------------

  /** `{ isAuthenticated | isValid, user?, error? }`. */
  datatype SessionCheck = SessionCheck(valid: bool, user: Option<Payload>, error: Option<string>)

  /** Verify the access cookie, with `missing` as the message when there is none. */
  function CheckAccessCookie(cookieHeader: Option<string>, checkAccess: string -> JwtCheck, missing: string): (c: SessionCheck)
    ensures c.valid <==> c.user.Some?
    ensures c.valid <==> c.error.None?
  {
    var access := Get(CookieJar(cookieHeader), "accessToken");
    if access.None? then SessionCheck(false, None, Some(missing))
    else
      match VerifyAccessToken(checkAccess(access.value))
      case Decoded(claims) => SessionCheck(true, Some(claims), None)
      case VerifyError(message) => SessionCheck(false, None, Some(message))
  }

  /** `AuthMiddleware.isAuthenticated`. */
  function IsAuthenticated(cookieHeader: Option<string>, checkAccess: string -> JwtCheck): SessionCheck {
    CheckAccessCookie(cookieHeader, checkAccess, "No se encontró access token")
  }

  /** `CookieUtils.verifyAccessTokenFromCookies`. */
  function VerifyAccessTokenFromCookies(cookieHeader: Option<string>, checkAccess: string -> JwtCheck): SessionCheck {
    CheckAccessCookie(cookieHeader, checkAccess, "No se encontró access token en las cookies")
  }

  /**
   * The plain check accepts exactly the requests `requireAuth` lets in
   * without issuing new tokens, with the same user; the two plain checks
   * differ only in the message for a missing cookie.
   */
  lemma PlainCheckAgreesWithRequireAuth(users: seq<UserRecord>, cookieHeader: Option<string>, jwt: Jwt)
    ensures IsAuthenticated(cookieHeader, jwt.checkAccess).valid <==>
            RequireAuthOutcome(users, cookieHeader, jwt).Authorized? && RequireAuthOutcome(users, cookieHeader, jwt).newTokens.None?
    ensures IsAuthenticated(cookieHeader, jwt.checkAccess).valid ==>
            IsAuthenticated(cookieHeader, jwt.checkAccess).user == Some(RequireAuthOutcome(users, cookieHeader, jwt).user)
    ensures IsAuthenticated(cookieHeader, jwt.checkAccess).valid == VerifyAccessTokenFromCookies(cookieHeader, jwt.checkAccess).valid
  {
  }
}
