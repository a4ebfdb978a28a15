/**
 * The logout endpoint (api/auth/logout.ts): a cookie that overwrites the
 * session cookie with an empty value and a zero lifetime.
 */
module Logout {
  import opened Common
  import opened Noco
  import opened Session
  import Login

  /** The attribute list of `buildClearCookie`, empty entries dropped. */
  function ClearAttributes(production: bool): seq<string> {
    Filter([CookieName + "=", "Path=/", "HttpOnly", "SameSite=Strict", "Max-Age=0",
            if production then "Secure" else ""], Login.NonEmpty)
  }

  /**
   * `buildClearCookie()`: the attributes joined with "; ", which is the session
   * cookie with an empty value and `Max-Age=0`.
   */
  function BuildClearCookie(production: bool): (r: string)
    ensures r == Login.BuildCookie("", 0, production)
  {
    ClearCookieExpires(production);
    Login.JoinWith(ClearAttributes(production), "; ")
  }

  /** The clearing cookie's attributes are the session cookie's for an empty value and a zero lifetime. */
  lemma ClearCookieExpires(production: bool)
    ensures ClearAttributes(production) == Login.CookieSegments("", 0, production)
  {
    var attrs := [CookieName + "=", "Path=/", "HttpOnly", "SameSite=Strict", "Max-Age=0",
                  if production then "Secure" else ""];
    assert IntToString(0) == "0";
    assert "Max-Age=" + IntToString(0) == "Max-Age=0";
    assert CookieName + "=" + "" == CookieName + "=";
    assert attrs == Login.FixedAttributes("", 0) + [Login.SecureAttribute(production)];
    FilterAppend(Login.FixedAttributes("", 0), [Login.SecureAttribute(production)], Login.NonEmpty);
    FilterAll(Login.FixedAttributes("", 0), Login.NonEmpty);
  }

  /** After logout the browser sends `yd_auth=`, whose value is the empty token the session endpoint rejects. */
  lemma ClearedCookieIsEmpty()
    ensures var cookies := Cookies(CookieParts(Some(CookieName + "=")));
      CookieName in cookies && cookies[CookieName] == ""
  {
    var header := CookieName + "=";
    assert header == ['y', 'd', '_', 'a', 'u', 't', 'h', '='];
    assert ';' !in header;
    SplitFirst(header, ';');
    assert CookieParts(Some(header)) == [header];
    Login.TrimmedAlready(header);
    PartAtFirstEquals(header, CookieName, "");
    assert Pairs([header]) == [(CookieName, "")];
  }

  /** The logout handler: 405 for anything but POST; otherwise 200 with the clearing cookie. */
  function Handler(httpMethod: string, production: bool): (r: Reply)
    ensures httpMethod != "POST" ==> r == Reply(405, None, ErrorBody("Método no permitido"))
    ensures httpMethod == "POST" ==>
      r.status == 200 && r.setCookie == Some(Login.BuildCookie("", 0, production))
      && r.body == JObj([("success", JBool(true))])
  {
    if httpMethod != "POST" then Reply(405, None, ErrorBody("Método no permitido"))
    else Reply(200, Some(BuildClearCookie(production)), JObj([("success", JBool(true))]))
  }
}
