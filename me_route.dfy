/**
 * The session probe, src/pages/api/auth/me.ts: parse the Cookie header,
 * verify the `fabrika_token` cookie and answer with the stored user.
 *
 * Its cookie parse differs from the one of src/libs/auth.ts: every segment
 * assigns, whatever its key and value, so an empty value or a missing '='
 * overwrites what an earlier segment set.
 */
module MeRoute {
  import opened Wrappers
  import opened JsText
  import opened JsValues
  import opened UserStore
  import opened Cookies

  /**
   * Every segment assigns its key, to the text between the first and the
   * second '=' (undefined without one).
   */
  function RawEntry(segment: string): Option<(string, Option<string>)> {
    Some(SegmentPair(segment))
  }

  /** The record me.ts builds from a Cookie header. */
  function RawJar(cookieHeader: string): map<string, Option<string>> {
    JarOf(Split(cookieHeader, ';'), RawEntry)
  }

  /** Every segment leaves its key in the record, empty keys included. */
  lemma RawJarKeepsEveryKey(cookieHeader: string, i: nat)
    requires i < |Split(cookieHeader, ';')|
    ensures SegmentPair(Split(cookieHeader, ';')[i]).0 in RawJar(cookieHeader)
  {
    var segments := Split(cookieHeader, ';');
    JarDomain(segments, RawEntry, SegmentPair(segments[i]).0);
    assert Assigns(RawEntry, segments[i], SegmentPair(segments[i]).0);
  }

  /** The `reduce` of me.ts as a loop assigning into the record, segment by segment. */
  method AssignSegments(segments: seq<string>) returns (cookies: map<string, Option<string>>)
    ensures cookies == JarOf(segments, RawEntry)
  {
    cookies := map[];
    var i := 0;
    while i < |segments|
      invariant 0 <= i <= |segments|
      invariant cookies == JarOf(segments[..i], RawEntry)
    {
      JarStep(segments, RawEntry, i);
      var kv := SegmentPair(segments[i]);
      cookies := cookies[kv.0 := kv.1];
      i := i + 1;
    }
    JarWhole(segments, RawEntry);
  }

  /** `cookieHeader.split(';').reduce(…)`. */
  method ParseCookieHeader(cookieHeader: string) returns (cookies: map<string, Option<string>>)
    ensures cookies == RawJar(cookieHeader)
  {
    cookies := AssignSegments(Split(cookieHeader, ';'));
  }

  const TokenCookie := "fabrika_token"
  const NoSession := "No se encontró token de sesión"
  const InvalidToken := "Token inválido"
  const UserNotFound := "Usuario no encontrado"

  /** `cookies['fabrika_token']`: undefined when absent or assigned without '='. */
  function SessionToken(cookieHeader: string): Option<string> {
    var jar := RawJar(cookieHeader);
    if TokenCookie in jar then jar[TokenCookie] else None
  }

  /**
   * The user in the 200 body, from the populated company: `companyId` is the
   * document's rendering, or null when there is no document; `company` is
   * the document, null for a dangling reference, undefined without one.
   */
  function MeUser(u: UserRecord, companies: Companies): JsVal {
    var company := Populate(u, companies);
    Obj([("id", Str(u.id)), ("name", Str(u.name)), ("email", Str(u.email)), ("role", Str(u.role)),
         ("companyId", if company.Document? then Str(companies.render(company.doc)) else Null),
         ("company", match company case Document(doc) => doc case Dangling => Null case Unset => Undefined)])
  }

  /**
   * The answer of `GET /api/auth/me`; `verify` stands for the unseen
   * `verifyToken`, giving the decoded user id or nothing for a falsy result.
   */
  function MeOutcome(users: seq<UserRecord>, companies: Companies, cookieHeader: Option<string>,
                     verify: string -> Option<string>): Response {
    if cookieHeader.None? || cookieHeader.value == "" then Reply(401, false, NoSession)
    else TokenOutcome(users, companies, SessionToken(cookieHeader.value), verify)
  }

  /** The answer once the session token has been read from the header. */
  function TokenOutcome(users: seq<UserRecord>, companies: Companies, token: Option<string>,
                        verify: string -> Option<string>): Response {
    if token.None? || token.value == "" then Reply(401, false, NoSession)
    else match verify(token.value)
      case None => Reply(401, false, InvalidToken)
      case Some(id) => UserOutcome(users, companies, id)
  }

  /** The answer once the token has been verified to a user id. */
  function UserOutcome(users: seq<UserRecord>, companies: Companies, id: string): Response {
    match FindById(users, id)
    case None => Reply(404, false, UserNotFound)
    case Some(k) => Response(200, Obj([("success", Bool(true)), ("user", MeUser(users[k], companies))]), None)
  }

  /** The route, reading the users and companies without changing them. */
  method HandleMe(users: seq<UserRecord>, companies: Companies, cookieHeader: Option<string>, verify: string -> Option<string>)
    returns (r: Response)
    ensures r == MeOutcome(users, companies, cookieHeader, verify)
  {
    if cookieHeader.None? || cookieHeader.value == "" {
      return Reply(401, false, NoSession);
    }
    var cookies := ParseCookieHeader(cookieHeader.value);
    var token := if TokenCookie in cookies then cookies[TokenCookie] else None;
    if token.None? || token.value == "" {
      return Reply(401, false, NoSession);
    }
    var decoded := verify(token.value);
    if decoded.None? {
      return Reply(401, false, InvalidToken);
    }
    var found := FindById(users, decoded.value);
    if found.None? {
      return Reply(404, false, UserNotFound);
    }
    r := Response(200, Obj([("success", Bool(true)), ("user", MeUser(users[found.value], companies))]), None);
  }

  /**
   * A verified id is answered with 200 exactly when a stored user has it,
   * and then with that user and its populated company.
   */
  lemma UserOutcomeFound(users: seq<UserRecord>, companies: Companies, id: string)
    ensures UserOutcome(users, companies, id).status == 200 <==> exists j :: 0 <= j < |users| && users[j].id == id
    ensures UserOutcome(users, companies, id).status == 200 ==>
            var k := FindById(users, id).value;
            UserOutcome(users, companies, id).body == Obj([("success", Bool(true)), ("user", MeUser(users[k], companies))])
            && users[k].id == id
            && CompanyEntriesOf(MeUser(users[k], companies), Populate(users[k], companies), companies)
  {
    FindCases(users, "", id);
    if FindById(users, id).Some? {
      MeUserCompany(users[FindById(users, id).value], companies);
    }
  }

  /**
   * The two company entries of a 200 user: `companyId` the rendering of the
   * document or null, `company` the document, null when dangling, undefined
   * when unset.
   */
  predicate CompanyEntriesOf(user: JsVal, company: PopulatedCompany, companies: Companies)
    requires !IsNullish(user)
  {
    && (company.Document? ==> PropertyRead(user, "companyId") == Str(companies.render(company.doc))
                              && PropertyRead(user, "company") == company.doc)
    && (company == Dangling ==> PropertyRead(user, "companyId") == Null && PropertyRead(user, "company") == Null)
    && (company == Unset ==> PropertyRead(user, "companyId") == Null && PropertyRead(user, "company") == Undefined)
  }

  /** The user built for the body carries the company entries of its populated company. */
  lemma MeUserCompany(u: UserRecord, companies: Companies)
    ensures CompanyEntriesOf(MeUser(u, companies), Populate(u, companies), companies)
  {
    var company := Populate(u, companies);
    var props := MeUser(u, companies).props;
    assert "company" != "companyId";
    assert props[..5][4] == ("companyId", if company.Document? then Str(companies.render(company.doc)) else Null);
    assert Lookup(props, "companyId") == Lookup(props[..5], "companyId");
  }

  /**
   * The answer is 200 exactly when the header carries a non-empty session
   * token that verifies to the id of a stored user, and its user is that
   * user, with the company entries of its populated company.
   */
  lemma MeSucceedsIff(users: seq<UserRecord>, companies: Companies, cookieHeader: Option<string>, verify: string -> Option<string>)
    ensures cookieHeader.None? ==> MeOutcome(users, companies, cookieHeader, verify) == Reply(401, false, NoSession)
    ensures MeOutcome(users, companies, cookieHeader, verify).status == 200 <==>
            cookieHeader.Some? && cookieHeader.value != ""
            && SessionToken(cookieHeader.value).Some? && SessionToken(cookieHeader.value).value != ""
            && verify(SessionToken(cookieHeader.value).value).Some?
            && exists j :: 0 <= j < |users| && users[j].id == verify(SessionToken(cookieHeader.value).value).value
    ensures MeOutcome(users, companies, cookieHeader, verify).status == 200 ==>
            var k := FindById(users, verify(SessionToken(cookieHeader.value).value).value).value;
            MeOutcome(users, companies, cookieHeader, verify).body == Obj([("success", Bool(true)), ("user", MeUser(users[k], companies))])
            && users[k].id == verify(SessionToken(cookieHeader.value).value).value
            && CompanyEntriesOf(MeUser(users[k], companies), Populate(users[k], companies), companies)
  {
    if cookieHeader.Some? && cookieHeader.value != "" {
      var token := SessionToken(cookieHeader.value);
      if token.Some? && token.value != "" && verify(token.value).Some? {
        UserOutcomeFound(users, companies, verify(token.value).value);
      }
    }
  }

  /** A segment `fabrika_token=` assigns the empty string in me.ts and nothing in src/libs/auth.ts. */
  lemma EmptyValueSegment(segment: string)
    requires Trim(segment) == TokenCookie + "="
    ensures SegmentPair(segment) == (TokenCookie, Some(""))
    ensures CookieEntry(segment).None?
  {
    assert Join([TokenCookie, ""], '=') == TokenCookie + "=";
    SplitJoin([TokenCookie, ""], '=');
  }

  /** The record of a header ending in `fabrika_token=`, in both parses. */
  lemma TrailingEmptyToken(head: string, segment: string)
    requires ';' !in segment && Trim(segment) == TokenCookie + "="
    ensures RawJar(head + ";" + segment) == RawJar(head)[TokenCookie := Some("")]
    ensures JarOf(Split(head + ";" + segment, ';'), CookieEntry) == JarOf(Split(head, ';'), CookieEntry)
  {
    assert head + ";" + segment == head + [';'] + segment;
    SplitAppend(head, segment, ';');
    EmptyValueSegment(segment);
    JarAppendOne(Split(head, ';'), segment, RawEntry);
    JarAppendOne(Split(head, ';'), segment, CookieEntry);
  }

  /**
   * A trailing `fabrika_token=` segment empties the session token, whatever
   * came before it, so the answer is 401; the parse of src/libs/auth.ts
   * ignores the same segment altogether.
   */
  lemma EmptyTokenSegmentWins(users: seq<UserRecord>, companies: Companies, head: string, segment: string,
                              verify: string -> Option<string>)
    requires head != "" && ';' !in segment && Trim(segment) == TokenCookie + "="
    ensures SessionToken(head + ";" + segment) == Some("")
    ensures MeOutcome(users, companies, Some(head + ";" + segment), verify) == Reply(401, false, NoSession)
    ensures CookieJar(Some(head + ";" + segment)) == CookieJar(Some(head))
  {
    TrailingEmptyToken(head, segment);
  }
}
