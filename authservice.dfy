/**
 * The browser-side auth client (services/authService.ts). On localhost with a
 * local key configured, the session is a flag in `localStorage`; anywhere
 * else, the client defers to the auth endpoints, whose answers are
 * parameters here.
 */
module AuthService {
  import opened Common
  import opened Noco

  const LocalSessionKey: string := "yd_local_auth"
  const LocalUserName: string := "Llave Dorada Local"

  /** What the page sees: whether `window` exists, its host name, and `VITE_LOCAL_AUTH_KEY` if set. */
  datatype Env = Env(hasWindow: bool, hostname: string, localAuthKey: Option<string>)

  /** `getLocalAuthKey()`: the trimmed key, or "" when none is set. */
  function LocalAuthKey(env: Env): (key: string)
    ensures env.localAuthKey.None? ==> key == ""
    ensures env.localAuthKey.Some? ==> key == Trim(env.localAuthKey.value)
  {
    match env.localAuthKey
    case None => ""
    case Some(k) => if k == "" then "" else Trim(k)
  }

  /** `isLocalBypassEnabled()`. */
  function IsLocalBypassEnabled(env: Env): (enabled: bool)
    ensures enabled <==>
      env.hasWindow && (env.hostname == "localhost" || env.hostname == "127.0.0.1") && LocalAuthKey(env) != ""
  {
    if !env.hasWindow then false
    else
      var isLocalhost := env.hostname == "localhost" || env.hostname == "127.0.0.1";
      isLocalhost && LocalAuthKey(env) != ""
  }

  /** The session object of the local bypass. */
  function LocalSession(authenticated: bool): Json {
    if authenticated
    then JObj([("authenticated", JBool(true)), ("user", JObj([("name", JStr(LocalUserName))])), ("isLocal", JBool(true))])
    else JObj([("authenticated", JBool(false)), ("isLocal", JBool(true))])
  }

  /** An answer of `fetch`: unreachable (the promise rejects), or a response with its status flag and JSON body, `None` when the body is not JSON. */
  datatype Fetched = Unreachable | Answered(ok: bool, body: Option<Json>)

  /**
   * Why a call throws: `fetch` rejected, a body was not JSON, a property was
   * read off a null body (a `TypeError`), or an `Error` with a message.
   */
  datatype Failure = FetchRejected | InvalidJson | ReadOfNull | Rejected(message: string)

  /**
   * What a failed remote login throws: the `Error` built from the server's
   * `error` field if truthy, else from 'Login fallido'; a body that is JSON
   * `null` has no `error` field to read, and reading it throws a `TypeError`.
   */
  function LoginError(body: Option<Json>): (f: Failure)
    ensures body.None? ==> f == Rejected("Login fallido")
    ensures body.Some? && (body.value.JNull? || body.value.JUndefined?) ==> f == ReadOfNull
    ensures body.Some? && !(body.value.JNull? || body.value.JUndefined?) && Truthy(Get(body.value, "error"))
            ==> f == Rejected(ToStr(Get(body.value, "error")))
    ensures body.Some? && !(body.value.JNull? || body.value.JUndefined?) && !Truthy(Get(body.value, "error"))
            ==> f == Rejected("Login fallido")
  {
    var error := if body.Some? then body.value else JObj([("error", JStr("Login fallido"))]);
    if error.JNull? || error.JUndefined? then ReadOfNull
    else Rejected(ToStr(Or(Get(error, "error"), JStr("Login fallido"))))
  }

  /** The JSON a successful response resolves to, or the failure of reading it. */
  function BodyOf(body: Option<Json>): Result<Json, Failure> {
    if body.Some? then Ok(body.value) else Err(InvalidJson)
  }

  /** The client, over the `localStorage` entries it reads and writes. */
  class AuthClient {
    var storage: map<string, string>
    const env: Env

    /** Whether the stored flag says the local session is open. */
    function LoggedInLocally(): bool
      reads this
    {
      LocalSessionKey in storage && storage[LocalSessionKey] == "true"
    }

    constructor(env: Env, storage: map<string, string>)
      ensures this.env == env && this.storage == storage
    {
      this.env := env;
      this.storage := storage;
    }

    /** `getSession()`: with the bypass, authenticated exactly when the flag is "true"; otherwise the server's answer. */
    method GetSession(answer: Fetched) returns (r: Result<Json, Failure>)
      ensures IsLocalBypassEnabled(env) ==> r == Ok(LocalSession(LoggedInLocally()))
      ensures !IsLocalBypassEnabled(env) ==>
        r == match answer
             case Unreachable => Err(FetchRejected)
             case Answered(ok, body) => if ok then BodyOf(body) else Ok(JObj([("authenticated", JBool(false))]))
    {
      if IsLocalBypassEnabled(env) {
        var isAuthenticated := LocalSessionKey in storage && storage[LocalSessionKey] == "true";
        return Ok(LocalSession(isAuthenticated));
      }
      match answer
      case Unreachable =>
        r := Err(FetchRejected);
      case Answered(ok, body) =>
        if !ok {
          return Ok(JObj([("authenticated", JBool(false))]));
        }
        r := BodyOf(body);
    }

    /**
     * `login(password)`. With the bypass: the configured key opens the local
     * session, anything else throws 'Credenciales inválidas' and leaves storage
     * alone. Otherwise storage is untouched and the outcome is the server's.
     */
    method Login(password: string, answer: Fetched) returns (r: Result<Json, Failure>)
      modifies this
      ensures IsLocalBypassEnabled(env) && password == LocalAuthKey(env) ==>
        r == Ok(LocalSession(true)) && storage == old(storage)[LocalSessionKey := "true"] && LoggedInLocally()
      ensures IsLocalBypassEnabled(env) && password != LocalAuthKey(env) ==>
        r == Err(Rejected("Credenciales inválidas")) && storage == old(storage)
      ensures !IsLocalBypassEnabled(env) ==>
        storage == old(storage)
        && r == match answer
                case Unreachable => Err(FetchRejected)
                case Answered(ok, body) => if ok then BodyOf(body) else Err(LoginError(body))
    {
      if IsLocalBypassEnabled(env) {
        var expected := LocalAuthKey(env);
        if expected == "" || password != expected {
          return Err(Rejected("Credenciales inválidas"));
        }
        storage := storage[LocalSessionKey := "true"];
        return Ok(LocalSession(true));
      }
      match answer
      case Unreachable =>
        r := Err(FetchRejected);
      case Answered(ok, body) =>
        if !ok {
          return Err(LoginError(body));
        }
        r := BodyOf(body);
    }

    /** `logout()`: with the bypass the flag is removed, closing the local session; otherwise only the request is sent. */
    method Logout(answer: Fetched) returns (r: Result<(), Failure>)
      modifies this
      ensures IsLocalBypassEnabled(env) ==>
        r == Ok(()) && storage == old(storage) - {LocalSessionKey} && !LoggedInLocally()
      ensures !IsLocalBypassEnabled(env) ==>
        storage == old(storage) && (r.Err? <==> answer.Unreachable?)
    {
      if IsLocalBypassEnabled(env) {
        storage := storage - {LocalSessionKey};
        return Ok(());
      }
      r := if answer.Unreachable? then Err(FetchRejected) else Ok(());
    }
  }

  /** The bypass needs a non-blank key: a key of white space alone leaves it off. */
  lemma BlankKeyDisablesBypass(env: Env)
    requires env.localAuthKey.Some? && forall i :: 0 <= i < |env.localAuthKey.value| ==> IsSpace(env.localAuthKey.value[i])
    ensures !IsLocalBypassEnabled(env)
  {
    TrimBlank(env.localAuthKey.value);
  }
}
