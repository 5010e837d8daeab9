/**
 * Token handling of src/libs/auth.ts (`TokenUtils`): the pair of tokens the
 * server issues, the mapping of JWT verification failures to the messages
 * the rest of the code inspects, and the extraction of a token from an
 * `Authorization`-style header (`Bearer <token>`, section 2.1 of RFC 6750,
 * and the analogous `Refresh <token>`).
 */
module Tokens {
  import opened Wrappers
  import opened JsText

  /** What a verified token carries about its user (the `UserPayload`). */
  datatype Payload = Payload(id: string, email: string, name: string)

  /** The `TokenResponse` of `generateTokenPair`. */
  datatype TokenPair = TokenPair(accessToken: string, refreshToken: string, expiresIn: string, refreshExpiresIn: string)

  const AccessExpiresIn := "15m"
  const RefreshExpiresIn := "7d"

  /**
   * `generateTokenPair(user)`: the two signed tokens come from `sign`, which
   * stands for `jwt.sign` with the two secrets.
   */
  function GenerateTokenPair(user: Payload, sign: Payload -> (string, string)): (p: TokenPair)
    ensures p.accessToken == sign(user).0 && p.refreshToken == sign(user).1
    ensures p.expiresIn == AccessExpiresIn && p.refreshExpiresIn == RefreshExpiresIn
  {
    TokenPair(sign(user).0, sign(user).1, AccessExpiresIn, RefreshExpiresIn)
  }

  /** What `jwt.verify` does with a token: decodes it, or fails in one of three ways. */
  datatype JwtCheck = JwtValid(claims: Payload) | JwtExpired | JwtMalformed | JwtFailed

  /** `verifyAccessToken` / `verifyRefreshToken`: the decoded payload, or the message of the `Error` thrown. */
  datatype Verified = Decoded(claims: Payload) | VerifyError(message: string)

  /** The thrown messages for a token of kind `kind` ("Access" or "Refresh"). */
  function VerifyToken(kind: string, check: JwtCheck): (v: Verified)
    ensures v.Decoded? <==> check.JwtValid?
    ensures check.JwtValid? ==> v.claims == check.claims
    ensures check.JwtExpired? ==> v == VerifyError(kind + " token expirado")
    ensures check.JwtMalformed? ==> v == VerifyError(kind + " token inválido")
    ensures check.JwtFailed? ==> v == VerifyError("Error verificando " + ToLower(kind) + " token")
  {
    match check
    case JwtValid(claims) => Decoded(claims)
    case JwtExpired => VerifyError(kind + " token expirado")
    case JwtMalformed => VerifyError(kind + " token inválido")
    case JwtFailed => VerifyError("Error verificando " + ToLower(kind) + " token")
  }

  function VerifyAccessToken(check: JwtCheck): Verified {
    VerifyToken("Access", check)
  }

  function VerifyRefreshToken(check: JwtCheck): Verified {
    VerifyToken("Refresh", check)
  }

  /** The message `requireAuth` treats as "try the refresh token". */
  const AccessExpiredMessage := "Access token expirado"

  /** Only an expired access token yields the message that triggers a refresh. */
  lemma OnlyExpiryTriggersRefresh(check: JwtCheck)
    ensures VerifyAccessToken(check) == VerifyError(AccessExpiredMessage) <==> check.JwtExpired?
  {
    assert ToLower("Access") == "access";
    if !check.JwtExpired? && !check.JwtValid? {
      assert VerifyAccessToken(check).message != AccessExpiredMessage by {
        if check.JwtMalformed? {
          assert VerifyAccessToken(check).message[13] == 'i';
        } else {
          assert VerifyAccessToken(check).message[0] == 'E';
        }
      }
    }
  }

  // ---------------------------------------------------------------------------
  // Header extraction
  // ---------------------------------------------------------------------------

  /**
   * `extract…FromHeader(header)`: a null or empty header has no token;
   * otherwise the header must split on ' ' into exactly the scheme and one
   * more piece, which is the token.
   */
  function ExtractFromHeader(header: Option<string>, scheme: string): Option<string> {
    if header.None? || header.value == "" then None
    else
      var parts := Split(header.value, ' ');
      if |parts| == 2 && parts[0] == scheme then Some(parts[1]) else None
  }

  function ExtractAccessTokenFromHeader(header: Option<string>): Option<string> {
    ExtractFromHeader(header, "Bearer")
  }

  function ExtractRefreshTokenFromHeader(header: Option<string>): Option<string> {
    ExtractFromHeader(header, "Refresh")
  }

  /**
   * A token is extracted exactly from `<scheme> <token>` with no further
   * space in the token (which may be empty).
   */
  lemma {:induction false} ExtractIff(header: string, scheme: string, token: string)
    requires ' ' !in scheme
    ensures ExtractFromHeader(Some(header), scheme) == Some(token) <==> header == scheme + " " + token && ' ' !in token
  {
    if ExtractFromHeader(Some(header), scheme) == Some(token) {
      var parts := Split(header, ' ');
      JoinSplit(header, ' ');
      assert parts == [scheme, token];
      assert Join(parts, ' ') == scheme + [' '] + token;
    }
    if header == scheme + " " + token && ' ' !in token {
      assert Join([scheme, token], ' ') == header;
      SplitJoin([scheme, token], ' ');
    }
  }

  /** Neither scheme accepts the other's header. */
  lemma SchemesDisjoint(header: string)
    ensures ExtractAccessTokenFromHeader(Some(header)).Some? ==> ExtractRefreshTokenFromHeader(Some(header)).None?
  {
  }
}
