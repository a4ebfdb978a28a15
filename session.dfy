/**
 * The session endpoint (api/auth/session.ts): the base64url form of tokens, the
 * `Cookie` header parser, the verification of a signed token and the routing of the
 * handler. HMAC-SHA256 and the base64 encoding of its digest, and the decoding
 * of a payload into JSON, are parameters.
 */
module Session {
  import opened Common
  import opened Noco

  const CookieName: string := "yd_auth"
  const DefaultUserName: string := "Llave Dorada Yani"

  // ---------------------------------------------------------------------------
  // base64url
  // ---------------------------------------------------------------------------

  /** A character of the base64 alphabet of section 4 of RFC 4648. */
  predicate IsBase64Char(c: char) {
    'A' <= c <= 'Z' || 'a' <= c <= 'z' || '0' <= c <= '9' || c == '+' || c == '/'
  }

  /** A character of the base64url alphabet of section 5 of RFC 4648. */
  predicate IsUrlChar(c: char) {
    'A' <= c <= 'Z' || 'a' <= c <= 'z' || '0' <= c <= '9' || c == '-' || c == '_'
  }

  /**
   * Text `Buffer.toString('base64')` yields for a non-empty input: alphabet
   * characters, then padding only.
   */
  predicate IsBase64Text(s: string) {
    |s| > 0 && IsBase64Char(s[0])
    && (forall i :: 0 <= i < |s| ==> IsBase64Char(s[i]) || s[i] == '=')
    && (forall i, j :: 0 <= i < j < |s| && s[i] == '=' ==> s[j] == '=')
  }

  /** The base64url character standing for a base64 character. */
  function UrlChar(c: char): (u: char)
    ensures u == '=' <==> c == '='
    ensures c != '-' && c != '_' ==> StandardChar(u) == c
  {
    if c == '+' then '-' else if c == '/' then '_' else c
  }

  /** The base64 character a base64url character stands for. */
  function StandardChar(u: char): char {
    if u == '-' then '+' else if u == '_' then '/' else u
  }

  /** `s.replace(/\+/g, '-').replace(/\//g, '_')`, character by character. */
  function ToUrlChars(s: string): (r: string)
    ensures |r| == |s|
    ensures forall i :: 0 <= i < |s| ==> r[i] == UrlChar(s[i])
  {
    if s == [] then [] else [UrlChar(s[0])] + ToUrlChars(s[1..])
  }

  /** `s.replace(/-/g, '+').replace(/_/g, '/')`: the replacement `verifyToken` applies before decoding. */
  function FromUrl(s: string): (r: string)
    ensures |r| == |s|
    ensures forall i :: 0 <= i < |s| ==> r[i] == StandardChar(s[i])
  {
    if s == [] then [] else [StandardChar(s[0])] + FromUrl(s[1..])
  }

  /** `s.replace(/=+$/g, '')`: the trailing run of '=' removed. */
  function StripPadding(s: string): (r: string)
    ensures |r| <= |s|
    ensures forall i :: 0 <= i < |r| ==> r[i] == s[i]
    ensures r == [] || r[|r| - 1] != '='
    ensures forall i :: |r| <= i < |s| ==> s[i] == '='
    decreases |s|
  {
    if s != [] && s[|s| - 1] == '=' then StripPadding(s[..|s| - 1]) else s
  }

  /** `base64Url` applied to the standard base64 text of its input. */
  function Base64Url(b64: string): (r: string)
    ensures '+' !in r && '/' !in r
    ensures r == [] || r[|r| - 1] != '='
  {
    StripPadding(ToUrlChars(b64))
  }

  /** Of standard base64 text, `base64Url` keeps a non-empty string over the base64url alphabet. */
  lemma Base64UrlAlphabet(b64: string)
    requires IsBase64Text(b64)
    ensures var r := Base64Url(b64);
      r != [] && forall i :: 0 <= i < |r| ==> IsUrlChar(r[i])
  {
    var t := ToUrlChars(b64);
    var r := StripPadding(t);
    assert t[0] != '=';
    forall i | 0 <= i < |r| ensures IsUrlChar(r[i]) {
      assert t[|r| - 1] != '=';
      assert b64[i] != '=';
      assert r[i] == t[i];
    }
  }

  /** Mapping the base64url text back recovers the standard text without its padding. */
  lemma FromUrlBase64Url(b64: string)
    requires IsBase64Text(b64)
    ensures FromUrl(Base64Url(b64)) == StripPadding(b64)
  {
    var p := StripPadding(b64);
    StripReplaced(b64);
    assert forall i :: 0 <= i < |p| ==> p[i] == b64[i] && p[i] != '-' && p[i] != '_';
    var r := FromUrl(ToUrlChars(p));
    forall i | 0 <= i < |p| ensures r[i] == p[i] {
      assert ToUrlChars(p)[i] == UrlChar(p[i]);
    }
  }

  /** Padding is stripped at the same place before and after the base64url replacements. */
  lemma StripReplaced(s: string)
    ensures StripPadding(ToUrlChars(s)) == ToUrlChars(StripPadding(s))
  {
    var t := ToUrlChars(s);
    var p := StripPadding(s);
    var q := StripPadding(t);
    assert p == [] || t[|p| - 1] != '=';
    assert q == [] || s[|q| - 1] != '=';
    assert |p| == |q|;
    var u := ToUrlChars(p);
    forall i | 0 <= i < |q| ensures q[i] == u[i] {
      assert q[i] == t[i] && p[i] == s[i];
    }
  }

  /** `sign(payload, secret)`: the base64url form of the HMAC digest, given as standard base64 by `hmac64`. */
  function Sign(payload: string, secret: string, hmac64: (string, string) -> string): (r: string)
    ensures '+' !in r && '/' !in r
  {
    Base64Url(hmac64(payload, secret))
  }

  // ---------------------------------------------------------------------------
  // Cookies
  // ---------------------------------------------------------------------------

  /** The name of a `;`-separated part: the trimmed part up to its first '='. */
  function PartName(part: string): string {
    Split(Trim(part), '=')[0]
  }

  /** The value of a part: everything after the first '=', rejoined with '='. */
  function PartValue(part: string): string {
    Join(Split(Trim(part), '=')[1..], '=')
  }

  /** The parts of a header; an absent or empty header has none. */
  function CookieParts(header: Option<string>): seq<string> {
    if header.None? || header.value == "" then [] else Split(header.value, ';')
  }

  /** The name and value of each part. */
  function Pairs(parts: seq<string>): (ps: seq<(string, string)>)
    ensures |ps| == |parts|
    ensures forall i :: 0 <= i < |parts| ==> ps[i] == (PartName(parts[i]), PartValue(parts[i]))
  {
    if parts == [] then []
    else Pairs(parts[..|parts| - 1]) + [(PartName(parts[|parts| - 1]), PartValue(parts[|parts| - 1]))]
  }

  /** The record built by assigning the pairs in order, later ones overwriting earlier ones. */
  function Record(ps: seq<(string, string)>): map<string, string>
    decreases |ps|
  {
    if ps == [] then map[] else Record(ps[..|ps| - 1])[ps[|ps| - 1].0 := ps[|ps| - 1].1]
  }

  /** The record `parseCookies` returns for the parts of a header. */
  function Cookies(parts: seq<string>): map<string, string> {
    Record(Pairs(parts))
  }

  /** `parseCookies(header)`. */
  method ParseCookies(header: Option<string>) returns (cookies: map<string, string>)
    ensures cookies == Cookies(CookieParts(header))
    ensures header.None? || header == Some("") ==> cookies == map[]
    ensures forall k :: k in cookies <==> exists i :: 0 <= i < |CookieParts(header)| && PartName(CookieParts(header)[i]) == k
  {
    cookies := map[];
    if header.None? || header.value == "" {
      return;
    }
    var parts := Split(header.value, ';');
    ghost var ps := Pairs(parts);
    var i := 0;
    while i < |parts|
      invariant 0 <= i <= |parts|
      invariant cookies == Record(ps[..i])
    {
      var part := parts[i];
      cookies := cookies[PartName(part) := PartValue(part)];
      assert ps[..i + 1][..i] == ps[..i];
      i := i + 1;
    }
    assert ps[..i] == ps;
    CookieNames(parts);
  }

  /** The names in the record are the names of the parts. */
  lemma CookieNames(parts: seq<string>)
    ensures forall k :: k in Cookies(parts) <==> exists i :: 0 <= i < |parts| && PartName(parts[i]) == k
  {
    var ps := Pairs(parts);
    forall k ensures k in Record(ps) <==> exists i :: 0 <= i < |parts| && PartName(parts[i]) == k {
      RecordKeys(ps, k);
      if k in Record(ps) {
        var j :| 0 <= j < |ps| && ps[j].0 == k;
        assert PartName(parts[j]) == k;
      }
    }
  }

  /** The names in a record are the names of its pairs. */
  lemma {:induction false} RecordKeys(ps: seq<(string, string)>, k: string)
    ensures k in Record(ps) <==> exists i :: 0 <= i < |ps| && ps[i].0 == k
    decreases |ps|
  {
    if ps != [] {
      var n := |ps| - 1;
      var init := ps[..n];
      RecordKeys(init, k);
      if k == ps[n].0 {
      } else if k in Record(init) {
        var i :| 0 <= i < |init| && init[i].0 == k;
        assert ps[i] == init[i];
      } else {
        forall i | 0 <= i < |ps| ensures ps[i].0 != k {
          if i < n {
            assert ps[i] == init[i];
          }
        }
      }
    }
  }

  /** A name maps to the value of its last pair. */
  lemma {:induction false} RecordLastWins(ps: seq<(string, string)>, i: nat)
    requires i < |ps|
    requires forall j :: i < j < |ps| ==> ps[j].0 != ps[i].0
    ensures ps[i].0 in Record(ps) && Record(ps)[ps[i].0] == ps[i].1
    decreases |ps|
  {
    if i < |ps| - 1 {
      var init := ps[..|ps| - 1];
      assert init[i] == ps[i];
      forall j | i < j < |init| ensures init[j].0 != init[i].0 {
        assert init[j] == ps[j];
      }
      RecordLastWins(init, i);
    }
  }

  /** Of the parts sharing a name, the last one's value is kept. */
  lemma LastPartWins(parts: seq<string>, i: nat)
    requires i < |parts|
    requires forall j :: i < j < |parts| ==> PartName(parts[j]) != PartName(parts[i])
    ensures PartName(parts[i]) in Cookies(parts) && Cookies(parts)[PartName(parts[i])] == PartValue(parts[i])
  {
    RecordLastWins(Pairs(parts), i);
  }

  /** A part is split at its first '=': a part without one is a name with an empty value. */
  lemma PartWithoutEquals(part: string)
    requires '=' !in Trim(part)
    ensures PartName(part) == Trim(part) && PartValue(part) == ""
  {
    SplitFirst(Trim(part), '=');
  }

  /** A part `name=value` with no '=' in the name: the value keeps any further '='. */
  lemma PartAtFirstEquals(part: string, name: string, value: string)
    requires Trim(part) == name + "=" + value && '=' !in name
    ensures PartName(part) == name && PartValue(part) == value
  {
    var t := Trim(part);
    SplitFirst(t, '=');
    var first := Split(t, '=')[0];
    var rest := Join(Split(t, '=')[1..], '=');
    assert t == first + "=" + rest;
    SamePrefix(name, value, first, rest, '=');
  }

  // ---------------------------------------------------------------------------
  // Tokens and the handler
  // ---------------------------------------------------------------------------

  /** The first two '.'-separated segments of a token; a missing second one is empty. */
  function TokenSegments(token: string): (string, string) {
    var parts := Split(token, '.');
    (parts[0], if |parts| > 1 then parts[1] else "")
  }

  /**
   * `verifyToken(token, secret)`: `None` unless both segments are non-empty and
   * the second is the signature of the first; then the payload decoded from
   * its base64url text, `None` when decoding or JSON parsing fails.
   */
  function VerifyToken(token: string, secret: string, hmac64: (string, string) -> string,
                       decodeJson: string -> Option<Json>): (r: Option<Json>)
    ensures r.Some? ==>
      var (payload, signature) := TokenSegments(token);
      payload != "" && signature != "" && signature == Sign(payload, secret, hmac64) && r == decodeJson(FromUrl(payload))
    ensures var (payload, signature) := TokenSegments(token);
      payload != "" && signature == Sign(payload, secret, hmac64) && signature != "" ==> r == decodeJson(FromUrl(payload))
  {
    var (payload, signature) := TokenSegments(token);
    if payload == "" || signature == "" then None
    else if signature != Sign(payload, secret, hmac64) then None
    else decodeJson(FromUrl(payload))
  }

  /** Segments after the second are ignored: `a.b.c` verifies as `a.b`. */
  lemma ExtraSegmentsIgnored(a: string, b: string, c: string)
    requires '.' !in a && '.' !in b
    ensures TokenSegments(a + "." + b + "." + c) == (a, b)
  {
    assert a + "." + b + "." + c == a + ['.'] + (b + ['.'] + c);
    SplitAround(a, b + ['.'] + c, '.');
    SplitAround(b, c, '.');
  }

  /** Two splittings of a string at a first separator agree. */
  lemma SamePrefix(a: string, b: string, x: string, y: string, sep: char)
    requires a + [sep] + b == x + [sep] + y && sep !in a && sep !in x
    ensures a == x && b == y
  {
    var t := a + [sep] + b;
    assert forall k :: 0 <= k < |a| ==> t[k] == a[k] != sep;
    assert forall k :: 0 <= k < |x| ==> t[k] == x[k] != sep;
    assert t[|a|] == sep && t[|x|] == sep;
    assert a == t[..|a|] == x;
    assert b == t[|a| + 1..] == y;
  }

  /** Splitting `a.b` where `a` has no separator gives `a` and the pieces of `b`. */
  lemma {:induction false} SplitAround(a: string, b: string, sep: char)
    requires sep !in a
    ensures Split(a + [sep] + b, sep) == [a] + Split(b, sep)
    decreases |a|
  {
    if a == [] {
      assert a + [sep] + b == [sep] + b;
      assert ([sep] + b)[1..] == b;
    } else {
      SplitAround(a[1..], b, sep);
      assert (a + [sep] + b)[1..] == a[1..] + [sep] + b;
      assert [a[0]] + a[1..] == a;
    }
  }

  /** The reply of an endpoint: status, `Set-Cookie` header if any, JSON body. */
  datatype Reply = Reply(status: nat, setCookie: Option<string>, body: Json)

  function ErrorBody(message: string): Json {
    JObj([("error", JStr(message))])
  }

  function SessionBody(name: Option<Json>): Json {
    match name
    case None => JObj([("authenticated", JBool(false))])
    case Some(n) => JObj([("authenticated", JBool(true)), ("user", JObj([("name", n)]))])
  }

  /**
   * The session handler: 405 for anything but GET, 500 without a secret, and
   * otherwise 200, authenticated exactly when the `yd_auth` cookie holds a token
   * whose payload verifies and is truthy; the user's name defaults when the
   * payload has none.
   */
  method Handler(httpMethod: string, secret: string, cookieHeader: Option<string>,
                 hmac64: (string, string) -> string, decodeJson: string -> Option<Json>)
    returns (r: Reply)
    ensures r.setCookie.None?
    ensures httpMethod != "GET" ==> r == Reply(405, None, ErrorBody("Método no permitido"))
    ensures httpMethod == "GET" && secret == "" ==> r == Reply(500, None, ErrorBody("AUTH_SECRET no configurado"))
    ensures httpMethod == "GET" && secret != "" ==>
      var cookies := Cookies(CookieParts(cookieHeader));
      var token := if CookieName in cookies then cookies[CookieName] else "";
      var payload := if token == "" then None else VerifyToken(token, secret, hmac64, decodeJson);
      r == Reply(200, None,
        if payload.Some? && Truthy(payload.value)
        then SessionBody(Some(Or(Get(payload.value, "name"), JStr(DefaultUserName))))
        else SessionBody(None))
  {
    if httpMethod != "GET" {
      return Reply(405, None, ErrorBody("Método no permitido"));
    }
    if secret == "" {
      return Reply(500, None, ErrorBody("AUTH_SECRET no configurado"));
    }
    var cookies := ParseCookies(cookieHeader);
    if CookieName !in cookies || cookies[CookieName] == "" {
      return Reply(200, None, SessionBody(None));
    }
    var payload := VerifyToken(cookies[CookieName], secret, hmac64, decodeJson);
    if payload.None? || !Truthy(payload.value) {
      return Reply(200, None, SessionBody(None));
    }
    r := Reply(200, None, SessionBody(Some(Or(Get(payload.value, "name"), JStr(DefaultUserName)))));
  }
}
