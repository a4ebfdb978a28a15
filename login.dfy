/**
 * The login endpoint (api/auth/login.ts): the `Set-Cookie` value, the signed
 * token it carries and the routing of the handler. The clock, the UTF-8 and
 * base64 encoding of the payload, HMAC-SHA256 and `JSON.parse` are parameters.
 */
module Login {
  import opened Common
  import opened Noco
  import opened Session

  /** `COOKIE_TTL_SECONDS`: twelve hours. */
  const CookieTtlSeconds: int := 60 * 60 * 12

  /** `parts.join(sep)` for a string separator. */
  function JoinWith(parts: seq<string>, sep: string): string {
    if |parts| == 0 then []
    else if |parts| == 1 then parts[0]
    else parts[0] + sep + JoinWith(parts[1..], sep)
  }

  /** `Boolean` on a string, as `.filter(Boolean)` uses it. */
  predicate NonEmpty(s: string) {
    s != ""
  }

  /** The attributes every session cookie carries, in order. */
  function FixedAttributes(value: string, maxAge: int): (fs: seq<string>)
    ensures |fs| == 5 && forall i :: 0 <= i < 5 ==> NonEmpty(fs[i])
  {
    var age := "Max-Age=" + IntToString(maxAge);
    assert |age| > 0;
    [CookieName + "=" + value, "Path=/", "HttpOnly", "SameSite=Strict", age]
  }

  /** The last attribute: `Secure` in production, empty otherwise. */
  function SecureAttribute(production: bool): string {
    if production then "Secure" else ""
  }

  /** The attributes `buildCookie` keeps after `.filter(Boolean)`: the fixed five, then `Secure` in production only. */
  function CookieSegments(value: string, maxAge: int, production: bool): (segs: seq<string>)
    ensures segs == FixedAttributes(value, maxAge) + (if production then ["Secure"] else [])
  {
    var fixed := FixedAttributes(value, maxAge);
    FilterAppend(fixed, [SecureAttribute(production)], NonEmpty);
    FilterAll(fixed, NonEmpty);
    Filter(fixed + [SecureAttribute(production)], NonEmpty)
  }

  /**
   * `buildCookie(value, maxAgeSeconds)`: the attributes written out in order,
   * with `; Secure` at the end in production only.
   */
  function BuildCookie(value: string, maxAge: int, production: bool): (r: string)
    ensures r == PlainCookieText(value, maxAge) + (if production then "; " + "Secure" else "")
  {
    CookieText(value, maxAge, production);
    JoinWith(CookieSegments(value, maxAge, production), "; ")
  }

  /** Joining one more part appends the separator and the part. */
  lemma {:induction false} JoinWithSnoc(parts: seq<string>, x: string, sep: string)
    requires parts != []
    ensures JoinWith(parts + [x], sep) == JoinWith(parts, sep) + sep + x
    decreases |parts|
  {
    if |parts| > 1 {
      JoinWithSnoc(parts[1..], x, sep);
      assert (parts + [x])[1..] == parts[1..] + [x];
    }
  }

  /** The cookie written out without `Secure`: the fixed attributes in order, separated by "; ". */
  function PlainCookieText(value: string, maxAge: int): string {
    CookieName + "=" + value + "; " + "Path=/" + "; " + "HttpOnly" + "; " + "SameSite=Strict"
    + "; " + ("Max-Age=" + IntToString(maxAge))
  }

  /** Joining the kept attributes writes them out in order, `; Secure` last in production only. */
  lemma CookieText(value: string, maxAge: int, production: bool)
    ensures !production ==> JoinWith(CookieSegments(value, maxAge, production), "; ") == PlainCookieText(value, maxAge)
    ensures production ==> JoinWith(CookieSegments(value, maxAge, production), "; ") == PlainCookieText(value, maxAge) + "; " + "Secure"
  {
    var first := CookieName + "=" + value;
    var age := "Max-Age=" + IntToString(maxAge);
    var sep := "; ";
    var p1, p2, p3, p4 := [first], [first, "Path=/"], [first, "Path=/", "HttpOnly"], [first, "Path=/", "HttpOnly", "SameSite=Strict"];
    JoinWithSnoc(p1, "Path=/", sep);
    assert p1 + ["Path=/"] == p2;
    JoinWithSnoc(p2, "HttpOnly", sep);
    assert p2 + ["HttpOnly"] == p3;
    JoinWithSnoc(p3, "SameSite=Strict", sep);
    assert p3 + ["SameSite=Strict"] == p4;
    JoinWithSnoc(p4, age, sep);
    var fixed := FixedAttributes(value, maxAge);
    assert fixed == p4 + [age];
    assert JoinWith(fixed, sep) == PlainCookieText(value, maxAge);
    if production {
      JoinWithSnoc(fixed, "Secure", sep);
    } else {
      assert fixed + [] == fixed;
    }
  }

  /** A session cookie starts with `yd_auth=<value>`. */
  lemma CookieStartsWithValue(value: string, maxAge: int, production: bool)
    ensures var c := BuildCookie(value, maxAge, production);
      var head := CookieName + "=" + value;
      |head| <= |c| && c[..|head|] == head
  {
  }

  /** A session cookie carries the `Secure` attribute exactly in production. */
  lemma SecureOnlyInProduction(value: string, maxAge: int, production: bool)
    ensures "Secure" in CookieSegments(value, maxAge, production) <==> production
  {
    var fixed := FixedAttributes(value, maxAge);
    assert "Secure" !in fixed by {
      assert "Secure"[0] == 'S';
      assert fixed[0][0] == 'y' && fixed[1][0] == 'P' && fixed[2][0] == 'H';
      assert fixed[3][0] == 'S' && fixed[3][1] == 'a' && "Secure"[1] == 'e';
      assert fixed[4][0] == 'M';
    }
  }

  /** `JSON.stringify({ sub: 'yd-admin', iat: now, name: 'Llave Dorada Yani' })`. */
  function PayloadText(now: nat): string {
    "{\"sub\":\"yd-admin\",\"iat\":" + IntToString(now) + ",\"name\":\"" + DefaultUserName + "\"}"
  }

  /**
   * The token login issues: the base64url form of the payload, a '.', and the
   * signature of that form. `base64` is `Buffer.from(s).toString('base64')`.
   */
  function IssueToken(now: nat, secret: string, base64: string -> string,
                      hmac64: (string, string) -> string): string
  {
    TokenFor(PayloadText(now), secret, base64, hmac64)
  }

  /** The signed token for a payload text. */
  function TokenFor(payload: string, secret: string, base64: string -> string,
                    hmac64: (string, string) -> string): string
  {
    var encoded := Base64Url(base64(payload));
    encoded + "." + Sign(encoded, secret, hmac64)
  }

  /** What a handler does with a request: reply, or throw out of the function. */
  datatype Outcome = Replied(reply: Reply) | Threw

  /** The request body: a string body is parsed as JSON, `None` when that throws; any other body is taken as is. */
  function RequestBody(body: Json, parseJson: string -> Option<Json>): (r: Option<Json>)
    ensures !body.JStr? ==> r == Some(body)
  {
    if body.JStr? then parseJson(body.s) else Some(body)
  }

  /**
   * The login handler: 405 for anything but POST, 500 without a secret or a
   * password, a throw when a string body is not JSON, 401 without a cookie
   * unless the body's `password` is the configured password as a string, and
   * otherwise 200 with the session cookie carrying a freshly signed token.
   */
  function Handler(httpMethod: string, secret: string, password: string, body: Json,
                   parseJson: string -> Option<Json>, now: nat, base64: string -> string,
                   hmac64: (string, string) -> string, production: bool): (r: Outcome)
    ensures httpMethod != "POST" ==> r == Replied(Reply(405, None, ErrorBody("Método no permitido")))
    ensures httpMethod == "POST" && (secret == "" || password == "") ==>
      r == Replied(Reply(500, None, ErrorBody("Configuración de autenticación incompleta")))
    ensures r == Threw <==>
      httpMethod == "POST" && secret != "" && password != "" && RequestBody(body, parseJson).None?
    ensures httpMethod == "POST" && secret != "" && password != "" && RequestBody(body, parseJson).Some? ==>
      var provided := Get(RequestBody(body, parseJson).value, "password");
      r.Replied? && (r.reply.status == 200 <==> provided == JStr(password))
      && (r.reply.status == 200 || r.reply == Reply(401, None, ErrorBody("Credenciales inválidas")))
    ensures r.Replied? && r.reply.status == 200 ==>
      r.reply.setCookie == Some(BuildCookie(IssueToken(now, secret, base64, hmac64), CookieTtlSeconds, production))
      && r.reply.body == SessionBody(Some(JStr(DefaultUserName)))
  {
    if httpMethod != "POST" then Replied(Reply(405, None, ErrorBody("Método no permitido")))
    else if secret == "" || password == "" then
      Replied(Reply(500, None, ErrorBody("Configuración de autenticación incompleta")))
    else
      match RequestBody(body, parseJson)
      case None => Threw
      case Some(parsed) =>
        var provided := Get(parsed, "password");
        if !Truthy(provided) || provided != JStr(password) then
          Replied(Reply(401, None, ErrorBody("Credenciales inválidas")))
        else
          var token := IssueToken(now, secret, base64, hmac64);
          Replied(Reply(200, Some(BuildCookie(token, CookieTtlSeconds, production)),
                        SessionBody(Some(JStr(DefaultUserName)))))
  }

  // ---------------------------------------------------------------------------
  // A login cookie sent back to the session endpoint
  // ---------------------------------------------------------------------------

  /** A string without white space at either end is its own trim. */
  lemma TrimmedAlready(s: string)
    requires s == [] || (!IsSpace(s[0]) && !IsSpace(s[|s| - 1]))
    ensures Trim(s) == s
  {
  }

  /** Text over the base64url alphabet and '.' holds no ';', '=' or white space. */
  predicate IsTokenText(s: string) {
    forall i :: 0 <= i < |s| ==> IsUrlChar(s[i]) || s[i] == '.'
  }

  /** Two base64url texts joined by '.' are token text. */
  lemma DottedTokenText(a: string, b: string)
    requires forall i :: 0 <= i < |a| ==> IsUrlChar(a[i])
    requires forall i :: 0 <= i < |b| ==> IsUrlChar(b[i])
    ensures IsTokenText(a + "." + b)
  {
    var t := a + "." + b;
    forall i | 0 <= i < |t| ensures IsUrlChar(t[i]) || t[i] == '.' {
      if i < |a| {
        assert t[i] == a[i];
      } else if i > |a| {
        assert t[i] == b[i - |a| - 1];
      }
    }
  }

  /** The token login issues is non-empty text over the base64url alphabet and '.'. */
  lemma TokenAlphabet(payload: string, secret: string, base64: string -> string, hmac64: (string, string) -> string)
    requires IsBase64Text(base64(payload))
    requires IsBase64Text(hmac64(Base64Url(base64(payload)), secret))
    ensures var token := TokenFor(payload, secret, base64, hmac64);
      token != [] && IsTokenText(token)
  {
    var encoded := Base64Url(base64(payload));
    Base64UrlAlphabet(base64(payload));
    Base64UrlAlphabet(hmac64(encoded, secret));
    DottedTokenText(encoded, Sign(encoded, secret, hmac64));
  }

  /** A header `yd_auth=<token>` is a single part, and its own trim. */
  lemma TokenHeaderPart(token: string)
    requires token != [] && IsTokenText(token)
    ensures var header := CookieName + "=" + token;
      CookieParts(Some(header)) == [header] && Trim(header) == header
  {
    var head := CookieName + "=";
    assert head == ['y', 'd', '_', 'a', 'u', 't', 'h', '='];
    var header := head + token;
    assert ';' !in token;
    assert ';' !in header;
    SplitFirst(header, ';');
    assert header[0] == 'y' && header[|header| - 1] == token[|token| - 1];
    TrimmedAlready(header);
  }

  /**
   * The header `yd_auth=<token>` the browser sends back after a login parses
   * to a record whose `yd_auth` entry is exactly the token.
   */
  lemma CookieCarriesToken(token: string)
    requires token != [] && IsTokenText(token)
    ensures var cookies := Cookies(CookieParts(Some(CookieName + "=" + token)));
      CookieName in cookies && cookies[CookieName] == token
  {
    var header := CookieName + "=" + token;
    TokenHeaderPart(token);
    PartAtFirstEquals(header, CookieName, token);
    assert Pairs([header]) == [(CookieName, token)];
  }

  /**
   * A token issued by login is accepted by the session endpoint under the same
   * secret, and decodes from the payload's base64 text with its padding removed.
   */
  lemma IssuedTokenVerifies(payload: string, secret: string, base64: string -> string,
                            hmac64: (string, string) -> string, decodeJson: string -> Option<Json>)
    requires IsBase64Text(base64(payload))
    requires IsBase64Text(hmac64(Base64Url(base64(payload)), secret))
    ensures VerifyToken(TokenFor(payload, secret, base64, hmac64), secret, hmac64, decodeJson)
         == decodeJson(StripPadding(base64(payload)))
  {
    var b64 := base64(payload);
    var encoded := Base64Url(b64);
    var signature := Sign(encoded, secret, hmac64);
    Base64UrlAlphabet(b64);
    Base64UrlAlphabet(hmac64(encoded, secret));
    assert '.' !in encoded && '.' !in signature;
    SplitAround(encoded, signature, '.');
    SplitFirst(signature, '.');
    assert TokenSegments(encoded + "." + signature) == (encoded, signature);
    FromUrlBase64Url(b64);
  }

  /**
   * Logging in opens a session: the header carrying the issued token parses
   * back to it, and the session endpoint verifies it under the same secret to
   * the payload decoded from its base64 text.
   */
  lemma LoginOpensSession(payload: string, secret: string, base64: string -> string,
                          hmac64: (string, string) -> string, decodeJson: string -> Option<Json>)
    requires IsBase64Text(base64(payload))
    requires IsBase64Text(hmac64(Base64Url(base64(payload)), secret))
    ensures var token := TokenFor(payload, secret, base64, hmac64);
      var cookies := Cookies(CookieParts(Some(CookieName + "=" + token)));
      CookieName in cookies && cookies[CookieName] == token && token != ""
      && VerifyToken(cookies[CookieName], secret, hmac64, decodeJson) == decodeJson(StripPadding(base64(payload)))
  {
    TokenAlphabet(payload, secret, base64, hmac64);
    CookieCarriesToken(TokenFor(payload, secret, base64, hmac64));
    IssuedTokenVerifies(payload, secret, base64, hmac64, decodeJson);
  }
}
