/**
 * Session transport through cookies (`CookieUtils` in src/libs/auth.ts):
 * the `Set-Cookie` values the server writes (attributes as in sections
 * 5.2.2, 5.2.5 and 5.2.6 of RFC 6265), the response headers they are
 * written to, and the parse of the request's `Cookie` header into
 * name/value pairs in the manner of section 5.4 of RFC 6265.
 */
module Cookies {
  import opened Wrappers
  import opened JsText
  import opened Tokens

  // ---------------------------------------------------------------------------
  // Set-Cookie values
  // ---------------------------------------------------------------------------

  const AccessMaxAge: nat := 15 * 60
  const RefreshMaxAge: nat := 7 * 24 * 60 * 60

  /** The attribute pieces after Max-Age, each with its leading space. */
  function AttributePieces(secure: bool): seq<string> {
    [" Path=/", " HttpOnly", " SameSite=Strict"] + (if secure then [" Secure"] else [])
  }

  /** The pieces between the ';' of a cookie value: the pair, then each attribute with its leading space. */
  function CookiePieces(name: string, value: string, maxAge: nat, secure: bool): seq<string> {
    [name + "=" + value, " Max-Age=" + NatToDecimal(maxAge)] + AttributePieces(secure)
  }

  /**
   * The template `name=value; Max-Age=…; Path=/; HttpOnly; SameSite=Strict`,
   * followed by `; Secure` when `secure`, written as its pieces joined by ';'.
   */
  function SetCookieValue(name: string, value: string, maxAge: nat, secure: bool): string {
    Join(CookiePieces(name, value, maxAge, secure), ';')
  }

  /** The cookie of `setAccessTokenCookie`; `Secure` only when NODE_ENV is 'production'. */
  function AccessCookie(token: string, nodeEnv: string): string {
    SetCookieValue("accessToken", token, AccessMaxAge, nodeEnv == "production")
  }

  /** The cookie of `setRefreshTokenCookie`. */
  function RefreshCookie(token: string, nodeEnv: string): string {
    SetCookieValue("refreshToken", token, RefreshMaxAge, nodeEnv == "production")
  }

  /** `accessToken=; Max-Age=0; Path=/; HttpOnly; SameSite=Strict`: an empty value that expires at once. */
  const ClearAccessCookie := SetCookieValue("accessToken", "", 0, false)

  /** `refreshToken=; Max-Age=0; Path=/; HttpOnly; SameSite=Strict`. */
  const ClearRefreshCookie := SetCookieValue("refreshToken", "", 0, false)

  /** The single header value `clearTokensCookies` writes: both clearing cookies joined by ", ". */
  const ClearBothCookies := ClearAccessCookie + ", " + ClearRefreshCookie

  /**
   * Read back at its ';' separators, a cookie value is its name/value pair
   * followed by exactly the attributes Max-Age, Path=/, HttpOnly,
   * SameSite=Strict and, when secure, Secure.
   */
  lemma {:induction false} SetCookiePieces(name: string, value: string, maxAge: nat, secure: bool)
    requires ';' !in name && ';' !in value
    ensures Split(SetCookieValue(name, value, maxAge, secure), ';') == CookiePieces(name, value, maxAge, secure)
  {
    var ps := CookiePieces(name, value, maxAge, secure);
    var digits := NatToDecimal(maxAge);
    assert ';' !in digits by {
      forall i | 0 <= i < |digits| ensures digits[i] != ';' {
        assert IsDigit(digits[i]);
      }
    }
    forall i | 0 <= i < |ps| ensures ';' !in ps[i] {
      if i == 0 {
        assert ps[0] == name + "=" + value;
      }
    }
    SplitJoin(ps, ';');
  }

  /** 900 renders as "900". */
  lemma AccessMaxAgeDigits()
    ensures NatToDecimal(AccessMaxAge) == "900"
  {
    assert NatToDecimal(9) == "9";
    assert NatToDecimal(90) == "90";
  }

  /** 604800 renders as "604800". */
  lemma RefreshMaxAgeDigits()
    ensures NatToDecimal(RefreshMaxAge) == "604800"
  {
    assert NatToDecimal(6) == "6";
    assert NatToDecimal(60) == "60";
    assert NatToDecimal(604) == "604";
    assert NatToDecimal(6048) == "6048";
    assert NatToDecimal(60480) == "60480";
  }

  /** Seconds in one unit of a token lifetime written as a count and a unit letter. */
  function UnitSeconds(unit: char): Option<nat> {
    if unit == 's' then Some(1)
    else if unit == 'm' then Some(60)
    else if unit == 'h' then Some(60 * 60)
    else if unit == 'd' then Some(24 * 60 * 60)
    else None
  }

  /**
   * The lifetime `jwt.sign` reads from an `expiresIn` such as "15m": a
   * decimal count followed by one unit letter, in seconds.
   */
  function SpanSeconds(span: string): (secs: Option<nat>)
    ensures secs.Some? ==> |span| >= 2 && UnitSeconds(span[|span| - 1]).Some?
  {
    if |span| < 2 then None
    else
      var count := span[..|span| - 1];
      var unit := UnitSeconds(span[|span| - 1]);
      if unit.Some? && forall i :: 0 <= i < |count| ==> DigitValue(count[i], 10).Some? then
        Some(DigitsValue(count, 10) * unit.value)
      else None
  }

  /**
   * The tokens `generateTokenPair` issues expire exactly when the cookies
   * that carry them do: the access token after 900 seconds, the refresh
   * token after 604800.
   */
  lemma TokenLifetimesMatchCookies(user: Payload, sign: Payload -> (string, string))
    ensures SpanSeconds(GenerateTokenPair(user, sign).expiresIn) == Some(AccessMaxAge)
    ensures SpanSeconds(GenerateTokenPair(user, sign).refreshExpiresIn) == Some(RefreshMaxAge)
  {
    var access := AccessExpiresIn[..|AccessExpiresIn| - 1];
    assert access == "15" && access[..1] == "1";
    assert DigitsValue(access[..1], 10) == 1 by {
      assert access[..1][..0] == "";
    }
    assert DigitsValue(access, 10) == 15;
    var refresh := RefreshExpiresIn[..|RefreshExpiresIn| - 1];
    assert refresh == "7" && refresh[..0] == "";
    assert DigitsValue(refresh, 10) == 7;
  }

  /** The access cookie lives 900 seconds. */
  lemma AccessCookieLifetime(token: string, nodeEnv: string)
    requires ';' !in token
    ensures |Split(AccessCookie(token, nodeEnv), ';')| >= 2 && Split(AccessCookie(token, nodeEnv), ';')[1] == " Max-Age=900"
  {
    SetCookiePieces("accessToken", token, AccessMaxAge, nodeEnv == "production");
    AccessMaxAgeDigits();
    assert CookiePieces("accessToken", token, AccessMaxAge, nodeEnv == "production")[1] == " Max-Age=" + NatToDecimal(AccessMaxAge);
  }

  /** The refresh cookie lives 604800 seconds (seven days). */
  lemma RefreshCookieLifetime(token: string, nodeEnv: string)
    requires ';' !in token
    ensures |Split(RefreshCookie(token, nodeEnv), ';')| >= 2 && Split(RefreshCookie(token, nodeEnv), ';')[1] == " Max-Age=604800"
  {
    SetCookiePieces("refreshToken", token, RefreshMaxAge, nodeEnv == "production");
    RefreshMaxAgeDigits();
    assert CookiePieces("refreshToken", token, RefreshMaxAge, nodeEnv == "production")[1] == " Max-Age=" + NatToDecimal(RefreshMaxAge);
  }

  /** The pieces name Path=/, HttpOnly and SameSite=Strict, and Secure exactly when secure. */
  lemma PiecesAttributes(name: string, value: string, maxAge: nat, secure: bool)
    requires name != [] && name[0] != ' '
    ensures var ps := CookiePieces(name, value, maxAge, secure);
            " Path=/" in ps && " HttpOnly" in ps && " SameSite=Strict" in ps && (" Secure" in ps <==> secure)
  {
    var ps := CookiePieces(name, value, maxAge, secure);
    assert ps[2] == " Path=/" && ps[3] == " HttpOnly" && ps[4] == " SameSite=Strict";
    if secure {
      assert ps[5] == " Secure";
    } else {
      forall i | 0 <= i < |ps| ensures ps[i] != " Secure" {
        if i == 0 {
          assert ps[0][0] == name[0];
        } else if i == 1 {
          assert ps[1][1] == 'M';
        } else {
          assert ps[i][1] != 'S' || |ps[i]| != 7;
        }
      }
    }
  }

  /** Every session cookie carries Path=/, HttpOnly and SameSite=Strict, and Secure exactly in production. */
  lemma SessionCookieAttributes(token: string, nodeEnv: string)
    requires ';' !in token
    ensures var ps := Split(AccessCookie(token, nodeEnv), ';');
            " Path=/" in ps && " HttpOnly" in ps && " SameSite=Strict" in ps && (" Secure" in ps <==> nodeEnv == "production")
    ensures var ps := Split(RefreshCookie(token, nodeEnv), ';');
            " Path=/" in ps && " HttpOnly" in ps && " SameSite=Strict" in ps && (" Secure" in ps <==> nodeEnv == "production")
  {
    SetCookiePieces("accessToken", token, AccessMaxAge, nodeEnv == "production");
    PiecesAttributes("accessToken", token, AccessMaxAge, nodeEnv == "production");
    SetCookiePieces("refreshToken", token, RefreshMaxAge, nodeEnv == "production");
    PiecesAttributes("refreshToken", token, RefreshMaxAge, nodeEnv == "production");
  }

  // ---------------------------------------------------------------------------
  // Response headers
  // ---------------------------------------------------------------------------

  /** The headers of a response under construction; `set` replaces any earlier value. */
  class ResponseHeaders {
    var entries: map<string, string>

    constructor (initial: map<string, string>)
      ensures entries == initial
    {
      entries := initial;
    }

    /** `headers.set(name, value)`. */
    method Set(name: string, value: string)
      modifies this
      ensures entries == old(entries)[name := value]
    {
      entries := entries[name := value];
    }
  }

  method SetAccessTokenCookie(headers: ResponseHeaders, token: string, nodeEnv: string)
    modifies headers
    ensures headers.entries == old(headers.entries)["Set-Cookie" := AccessCookie(token, nodeEnv)]
  {
    headers.Set("Set-Cookie", AccessCookie(token, nodeEnv));
  }

  method SetRefreshTokenCookie(headers: ResponseHeaders, token: string, nodeEnv: string)
    modifies headers
    ensures headers.entries == old(headers.entries)["Set-Cookie" := RefreshCookie(token, nodeEnv)]
  {
    headers.Set("Set-Cookie", RefreshCookie(token, nodeEnv));
  }

  method ClearTokensCookies(headers: ResponseHeaders)
    modifies headers
    ensures headers.entries == old(headers.entries)["Set-Cookie" := ClearBothCookies]
  {
    headers.Set("Set-Cookie", ClearBothCookies);
  }

  /**
   * `setTokensCookies`: two successive `set` calls on the same header, so
   * only the refresh cookie is left in `Set-Cookie`.
   */
  method SetTokensCookies(headers: ResponseHeaders, tokens: TokenPair, nodeEnv: string)
    modifies headers
    ensures headers.entries == old(headers.entries)["Set-Cookie" := RefreshCookie(tokens.refreshToken, nodeEnv)]
  {
    SetAccessTokenCookie(headers, tokens.accessToken, nodeEnv);
    SetRefreshTokenCookie(headers, tokens.refreshToken, nodeEnv);
  }

  // ---------------------------------------------------------------------------
  // Parsing the Cookie header
  // ---------------------------------------------------------------------------

  /**
   * `const [key, value] = segment.trim().split('=')`: the text before the
   * first '=' and the text between the first and second '=', absent when
   * there is no '='.
   */
  function SegmentPair(segment: string): (kv: (string, Option<string>))
    ensures '=' !in kv.0 && (kv.1.Some? ==> '=' !in kv.1.value)
    ensures kv.1.None? <==> '=' !in Trim(segment)
  {
    var parts := Split(Trim(segment), '=');
    SplitSeveralIff(Trim(segment), '=');
    (parts[0], if |parts| >= 2 then Some(parts[1]) else None)
  }

  /** The assignment `acc[key] = value` happens only when both are non-empty strings. */
  function CookieEntry(segment: string): (e: Option<(string, string)>)
    ensures e.Some? ==> e.value.0 != "" && e.value.1 != "" && '=' !in e.value.0 && '=' !in e.value.1
  {
    var (key, value) := SegmentPair(segment);
    if key != "" && value.Some? && value.value != "" then Some((key, value.value)) else None
  }

  /**
   * The record a `reduce` over the segments builds, left to right: `entry`
   * says which name a segment assigns and to what, if anything.
   */
  function JarOf<V>(segments: seq<string>, entry: string -> Option<(string, V)>): map<string, V> {
    if segments == [] then map[]
    else
      var jar := JarOf(segments[..|segments| - 1], entry);
      match entry(segments[|segments| - 1])
      case None => jar
      case Some(kv) => jar[kv.0 := kv.1]
  }

  /** One more segment: the record so far, updated by what that segment assigns. */
  lemma JarStep<V>(segments: seq<string>, entry: string -> Option<(string, V)>, i: nat)
    requires i < |segments|
    ensures entry(segments[i]).None? ==> JarOf(segments[..i + 1], entry) == JarOf(segments[..i], entry)
    ensures entry(segments[i]).Some? ==>
            JarOf(segments[..i + 1], entry) == JarOf(segments[..i], entry)[entry(segments[i]).value.0 := entry(segments[i]).value.1]
  {
    assert segments[..i + 1][..i] == segments[..i];
  }

  /** The whole sequence as its own longest prefix. */
  lemma JarWhole<V>(segments: seq<string>, entry: string -> Option<(string, V)>)
    ensures JarOf(segments[..|segments|], entry) == JarOf(segments, entry)
  {
    assert segments[..|segments|] == segments;
  }

  /** A segment appended to a header is the last thing its record assigns. */
  lemma JarAppendOne<V>(segments: seq<string>, last: string, entry: string -> Option<(string, V)>)
    ensures entry(last).None? ==> JarOf(segments + [last], entry) == JarOf(segments, entry)
    ensures entry(last).Some? ==> JarOf(segments + [last], entry) == JarOf(segments, entry)[entry(last).value.0 := entry(last).value.1]
  {
    var s := segments + [last];
    assert s[..|s| - 1] == segments;
  }

  predicate Assigns<V>(entry: string -> Option<(string, V)>, segment: string, name: string) {
    entry(segment).Some? && entry(segment).value.0 == name
  }

  /** A name is in the record exactly when some segment assigns it. */
  lemma {:induction false} JarDomain<V>(segments: seq<string>, entry: string -> Option<(string, V)>, name: string)
    ensures name in JarOf(segments, entry) <==> exists i :: 0 <= i < |segments| && Assigns(entry, segments[i], name)
  {
    if segments != [] {
      var init := segments[..|segments| - 1];
      JarDomain(init, entry, name);
      if name in JarOf(init, entry) {
        var i :| 0 <= i < |init| && Assigns(entry, init[i], name);
        assert segments[i] == init[i];
      }
      if exists i :: 0 <= i < |segments| && Assigns(entry, segments[i], name) {
        var i :| 0 <= i < |segments| && Assigns(entry, segments[i], name);
        if i < |init| {
          assert Assigns(entry, init[i], name);
        }
      }
    }
  }

  /** Every value in the record is one that some segment assigned to that name. */
  lemma {:induction false} JarValues<V>(segments: seq<string>, entry: string -> Option<(string, V)>, name: string)
    requires name in JarOf(segments, entry)
    ensures exists i :: 0 <= i < |segments| && entry(segments[i]) == Some((name, JarOf(segments, entry)[name]))
  {
    var init := segments[..|segments| - 1];
    var last := |segments| - 1;
    if entry(segments[last]).Some? && entry(segments[last]).value.0 == name {
      assert entry(segments[last]) == Some((name, JarOf(segments, entry)[name]));
    } else {
      JarValues(init, entry, name);
      var i :| 0 <= i < |init| && entry(init[i]) == Some((name, JarOf(init, entry)[name]));
      assert segments[i] == init[i];
    }
  }

  /** The last segment that assigns a name decides its value. */
  lemma {:induction false} JarLastWins<V>(segments: seq<string>, entry: string -> Option<(string, V)>, i: nat, name: string, value: V)
    requires i < |segments| && entry(segments[i]) == Some((name, value))
    requires forall j :: i < j < |segments| ==> !Assigns(entry, segments[j], name)
    ensures name in JarOf(segments, entry) && JarOf(segments, entry)[name] == value
  {
    var init := segments[..|segments| - 1];
    if i < |segments| - 1 {
      assert init[i] == segments[i];
      forall j | i < j < |init| ensures !Assigns(entry, init[j], name) {
        assert init[j] == segments[j];
      }
      JarLastWins(init, entry, i, name, value);
      assert !Assigns(entry, segments[|segments| - 1], name);
    }
  }

  /** `getTokenFromCookies`: the record for a present, non-empty header, else nothing. */
  function CookieJar(cookieHeader: Option<string>): map<string, string> {
    if cookieHeader.None? || cookieHeader.value == "" then map[] else JarOf(Split(cookieHeader.value, ';'), CookieEntry)
  }

  /** Only non-empty names with non-empty, '='-free values make it into the record. */
  lemma CookieJarFiltered(cookieHeader: Option<string>, name: string)
    requires name in CookieJar(cookieHeader)
    ensures name != "" && CookieJar(cookieHeader)[name] != ""
    ensures '=' !in name && '=' !in CookieJar(cookieHeader)[name]
  {
    var segments := Split(cookieHeader.value, ';');
    JarValues(segments, CookieEntry, name);
    var i :| 0 <= i < |segments| && CookieEntry(segments[i]) == Some((name, CookieJar(cookieHeader)[name]));
  }

  function Get<V>(jar: map<string, V>, name: string): Option<V> {
    if name in jar then Some(jar[name]) else None
  }

  /** The `reduce` of `getTokenFromCookies` as a loop assigning into the record, segment by segment. */
  method AssignCookies(segments: seq<string>) returns (jar: map<string, string>)
    ensures jar == JarOf(segments, CookieEntry)
  {
    jar := map[];
    var i := 0;
    while i < |segments|
      invariant 0 <= i <= |segments|
      invariant jar == JarOf(segments[..i], CookieEntry)
    {
      JarStep(segments, CookieEntry, i);
      var (key, value) := SegmentPair(segments[i]);
      if key != "" && value.Some? && value.value != "" {
        jar := jar[key := value.value];
      }
      i := i + 1;
    }
    JarWhole(segments, CookieEntry);
  }

  /**
   * `getTokenFromCookies(request)`. The two results are the `accessToken`
   * and `refreshToken` properties, undefined when absent.
   */
  method GetTokenFromCookies(cookieHeader: Option<string>) returns (accessToken: Option<string>, refreshToken: Option<string>)
    ensures accessToken == Get(CookieJar(cookieHeader), "accessToken")
    ensures refreshToken == Get(CookieJar(cookieHeader), "refreshToken")
  {
    if cookieHeader.None? || cookieHeader.value == "" {
      return None, None;
    }
    var jar := AssignCookies(Split(cookieHeader.value, ';'));
    accessToken := Get(jar, "accessToken");
    refreshToken := Get(jar, "refreshToken");
  }

  // ---------------------------------------------------------------------------
  // Round trip
  // ---------------------------------------------------------------------------

  /** A value the parse hands back unchanged: non-empty, no ';' or '=', no whitespace at its ends. */
  predicate PlainCookieValue(v: string) {
    v != "" && ';' !in v && '=' !in v && NoEdgeWhitespace(v)
  }

  /** A trimmed `name=value` segment, with or without one leading space, is itself. */
  lemma TrimOfPair(name: string, value: string, lead: bool)
    requires name != "" && !IsJsWhitespace(name[0]) && value != "" && NoEdgeWhitespace(value)
    ensures Trim((if lead then " " else "") + name + "=" + value) == name + "=" + value
  {
    var bare := name + "=" + value;
    assert NoEdgeWhitespace(bare) by {
      assert bare[0] == name[0] && bare[|bare| - 1] == value[|value| - 1];
    }
    if lead {
      assert (if lead then " " else "") + name + "=" + value == [' '] + bare;
      TrimAfterSpace(' ', bare);
    } else {
      assert (if lead then " " else "") + name + "=" + value == bare;
    }
  }

  /** A segment that trims to `name=value` assigns `value` to `name`. */
  lemma EntryOfPair(segment: string, name: string, value: string)
    requires Trim(segment) == name + "=" + value
    requires name != "" && '=' !in name && value != "" && '=' !in value
    ensures CookieEntry(segment) == Some((name, value))
  {
    assert Join([name, value], '=') == name + "=" + value;
    SplitJoin([name, value], '=');
  }

  /** The header of two cookies, as a client joins them with "; ". */
  function TwoCookieHeader(name1: string, value1: string, name2: string, value2: string): string {
    name1 + "=" + value1 + ";" + " " + name2 + "=" + value2
  }

  lemma TwoCookieSegments(name1: string, value1: string, name2: string, value2: string)
    requires ';' !in name1 + value1 + name2 + value2
    ensures Split(TwoCookieHeader(name1, value1, name2, value2), ';') == [name1 + "=" + value1, " " + name2 + "=" + value2]
  {
    var first := name1 + "=" + value1;
    var second := " " + name2 + "=" + value2;
    assert ';' !in first by {
      assert forall c :: c in first ==> c in name1 + value1 + name2 + value2 || c == '=';
    }
    assert ';' !in second by {
      assert forall c :: c in second ==> c in name1 + value1 + name2 + value2 || c == '=' || c == ' ';
    }
    assert Join([first, second], ';') == TwoCookieHeader(name1, value1, name2, value2);
    SplitJoin([first, second], ';');
  }

  /** The record of two segments: what the first assigns, then what the second assigns. */
  lemma JarOfTwo<V>(first: string, second: string, entry: string -> Option<(string, V)>)
    requires entry(first).Some? && entry(second).Some?
    ensures JarOf([first, second], entry)
            == map[entry(first).value.0 := entry(first).value.1][entry(second).value.0 := entry(second).value.1]
  {
    JarAppendOne([], first, entry);
    assert [] + [first] == [first];
    JarAppendOne([first], second, entry);
    assert [first] + [second] == [first, second];
  }

  /** Each segment of a two-cookie header assigns its own pair. */
  lemma TwoCookieEntries(name1: string, value1: string, name2: string, value2: string)
    requires PlainCookieValue(value1) && PlainCookieValue(value2)
    requires name1 != "" && '=' !in name1 && !IsJsWhitespace(name1[0])
    requires name2 != "" && '=' !in name2 && !IsJsWhitespace(name2[0])
    ensures CookieEntry(name1 + "=" + value1) == Some((name1, value1))
    ensures CookieEntry(" " + name2 + "=" + value2) == Some((name2, value2))
  {
    TrimOfPair(name1, value1, false);
    assert "" + name1 + "=" + value1 == name1 + "=" + value1;
    EntryOfPair(name1 + "=" + value1, name1, value1);
    TrimOfPair(name2, value2, true);
    EntryOfPair(" " + name2 + "=" + value2, name2, value2);
  }

  /** The record of a two-cookie header holds the two pairs. */
  lemma TwoCookieJar(name1: string, value1: string, name2: string, value2: string)
    requires PlainCookieValue(value1) && PlainCookieValue(value2)
    requires name1 != "" && ';' !in name1 && '=' !in name1 && !IsJsWhitespace(name1[0])
    requires name2 != "" && ';' !in name2 && '=' !in name2 && !IsJsWhitespace(name2[0])
    ensures CookieJar(Some(TwoCookieHeader(name1, value1, name2, value2))) == map[name1 := value1][name2 := value2]
  {
    var header := TwoCookieHeader(name1, value1, name2, value2);
    assert header != "" by { assert header[0] == name1[0]; }
    TwoCookieSegments(name1, value1, name2, value2);
    TwoCookieEntries(name1, value1, name2, value2);
    JarOfTwo(name1 + "=" + value1, " " + name2 + "=" + value2, CookieEntry);
  }

  /** A header of two cookies with different names is read back as it was sent. */
  lemma TwoCookieRoundTrip(name1: string, value1: string, name2: string, value2: string)
    requires PlainCookieValue(value1) && PlainCookieValue(value2) && name1 != name2
    requires name1 != "" && ';' !in name1 && '=' !in name1 && !IsJsWhitespace(name1[0])
    requires name2 != "" && ';' !in name2 && '=' !in name2 && !IsJsWhitespace(name2[0])
    ensures Get(CookieJar(Some(TwoCookieHeader(name1, value1, name2, value2))), name1) == Some(value1)
    ensures Get(CookieJar(Some(TwoCookieHeader(name1, value1, name2, value2))), name2) == Some(value2)
  {
    TwoCookieJar(name1, value1, name2, value2);
  }

  /** The `Cookie` header a client sends back with both session cookies. */
  function SessionCookieHeader(accessToken: string, refreshToken: string): string {
    TwoCookieHeader("accessToken", accessToken, "refreshToken", refreshToken)
  }

  /** Tokens sent back in the session cookie header are read back as they were sent. */
  lemma SessionCookieRoundTrip(accessToken: string, refreshToken: string)
    requires PlainCookieValue(accessToken) && PlainCookieValue(refreshToken)
    ensures Get(CookieJar(Some(SessionCookieHeader(accessToken, refreshToken))), "accessToken") == Some(accessToken)
    ensures Get(CookieJar(Some(SessionCookieHeader(accessToken, refreshToken))), "refreshToken") == Some(refreshToken)
  {
    TwoCookieRoundTrip("accessToken", accessToken, "refreshToken", refreshToken);
  }
}
