/**
 * The decision logic of internal/auth: environment lookups with defaults,
 * the OAuth client ID chosen for a hostname (login.go), the boolean
 * environment switch and the token precedence with its expiry cache
 * (ensure.go). The environment is a map passed in; the clock, the keyring
 * token source and the interactive login flow are parameters standing for
 * what those calls returned.
 */
module Auth {
  import opened Wrappers
  import opened Strings
  import AuthUtil

  /** The process environment; an unset variable reads as "". */
  type Env = map<string, string>

  function Getenv(env: Env, k: string): string {
    if k in env then env[k] else ""
  }

  const StagingClientID := "325848904128073754"
  const ProdClientID := "328728232771788043"
  const DefaultAuthHostname := "auth.datum.net"

  // ---- login.go

  /** getenvDefault: the variable when it is non-empty, the default otherwise. */
  function GetenvDefault(env: Env, k: string, d: string): (r: string)
    ensures r == d || r == Getenv(env, k)
    ensures Getenv(env, k) == "" <==> r == d && (k !in env || env[k] == "")
    ensures Getenv(env, k) != "" ==> r == env[k]
    ensures d != "" ==> r != ""
  {
    if Getenv(env, k) != "" then Getenv(env, k) else d
  }

  /** defaultHostnames: the auth hostname (never empty, `auth.datum.net`
      by default) and the API hostname as set, possibly empty. */
  function DefaultHostnames(env: Env): (hosts: (string, string))
    ensures hosts.0 != ""
    ensures Getenv(env, "DATUM_AUTH_HOSTNAME") == "" ==> hosts.0 == DefaultAuthHostname
    ensures Getenv(env, "DATUM_AUTH_HOSTNAME") != "" ==> hosts.0 == env["DATUM_AUTH_HOSTNAME"]
    ensures hosts.1 == Getenv(env, "DATUM_API_HOSTNAME")
  {
    (GetenvDefault(env, "DATUM_AUTH_HOSTNAME", DefaultAuthHostname), Getenv(env, "DATUM_API_HOSTNAME"))
  }

  /** resolveClientID: an explicit DATUM_CLIENT_ID, then the staging ID for
      `*.staging.env.datum.net`, then the production ID for `*.datum.net`;
      any other hostname is an error. */
  function ResolveClientID(env: Env, hostname: string): (r: Result<string, string>)
    ensures Getenv(env, "DATUM_CLIENT_ID") != "" ==> r == Ok(Getenv(env, "DATUM_CLIENT_ID"))
    ensures Getenv(env, "DATUM_CLIENT_ID") == "" ==>
      && (HasSuffix(hostname, ".staging.env.datum.net") ==> r == Ok(StagingClientID))
      && (!HasSuffix(hostname, ".staging.env.datum.net") && HasSuffix(hostname, ".datum.net") ==> r == Ok(ProdClientID))
      && (!HasSuffix(hostname, ".datum.net") ==>
            r == Err("client ID not configured for hostname '" + hostname + "'. Set DATUM_CLIENT_ID"))
    ensures r.Ok? ==> r.value != ""
  {
    var v := Getenv(env, "DATUM_CLIENT_ID");
    if v != "" then Ok(v)
    else if HasSuffix(hostname, ".staging.env.datum.net") then Ok(StagingClientID)
    else if HasSuffix(hostname, ".datum.net") then Ok(ProdClientID)
    else Err("client ID not configured for hostname '" + hostname + "'. Set DATUM_CLIENT_ID")
  }

  /** Every staging hostname also ends in `.datum.net`, so the staging test
      has to come first for the staging ID ever to be chosen. */
  lemma StagingIsDatum(hostname: string)
    requires HasSuffix(hostname, ".staging.env.datum.net")
    ensures HasSuffix(hostname, ".datum.net")
  {
    var n := |hostname|;
    assert hostname[n - 10..] == hostname[n - 22..][12..];
    assert ".staging.env.datum.net"[12..] == ".datum.net";
  }

  /** What RunLoginFlow settles before contacting the provider: the auth
      hostname, the client ID for it and the API hostname (the one set, or
      the one derived from the auth hostname). */
  datatype LoginTarget = LoginTarget(authHost: string, clientID: string, apiHost: string)

  function LoginTargetOf(env: Env): (r: Result<LoginTarget, string>)
    ensures r.Ok? ==> r.value.authHost == DefaultHostnames(env).0
    ensures r.Ok? ==> ResolveClientID(env, r.value.authHost) == Ok(r.value.clientID)
    ensures r.Ok? ==> r.value.clientID != "" && r.value.apiHost != ""
    ensures r.Ok? <==>
      && ResolveClientID(env, DefaultHostnames(env).0).Ok?
      && (Getenv(env, "DATUM_API_HOSTNAME") != "" || AuthUtil.DeriveAPIHostname(DefaultHostnames(env).0).Ok?)
    ensures r.Ok? ==>
      r.value.apiHost == (if Getenv(env, "DATUM_API_HOSTNAME") != "" then env["DATUM_API_HOSTNAME"]
                          else AuthUtil.DeriveAPIHostname(r.value.authHost).value)
    ensures ResolveClientID(env, DefaultHostnames(env).0).Err? ==> r == Err(ResolveClientID(env, DefaultHostnames(env).0).error)
    ensures (&& ResolveClientID(env, DefaultHostnames(env).0).Ok?
             && Getenv(env, "DATUM_API_HOSTNAME") == ""
             && AuthUtil.DeriveAPIHostname(DefaultHostnames(env).0).Err?) ==>
      r == Err("failed to derive API hostname: " + AuthUtil.DeriveAPIHostname(DefaultHostnames(env).0).error)
  {
    var (authHost, apiHost) := DefaultHostnames(env);
    match ResolveClientID(env, authHost)
    case Err(e) => Err(e)
    case Ok(clientID) =>
      if apiHost != "" then Ok(LoginTarget(authHost, clientID, apiHost))
      else
        match AuthUtil.DeriveAPIHostname(authHost)
        case Err(e) => Err("failed to derive API hostname: " + e)
        case Ok(derived) => Ok(LoginTarget(authHost, clientID, derived))
  }

  /** With none of the variables set, login targets production: the default
      auth hostname, the production client ID and `api.datum.net`. */
  lemma DefaultLoginTarget(env: Env)
    requires Getenv(env, "DATUM_AUTH_HOSTNAME") == "" && Getenv(env, "DATUM_API_HOSTNAME") == ""
    requires Getenv(env, "DATUM_CLIENT_ID") == ""
    ensures LoginTargetOf(env) == Ok(LoginTarget(DefaultAuthHostname, ProdClientID, "api.datum.net"))
  {
    DefaultHostIsProduction();
    DefaultHostDerives();
    assert DefaultHostnames(env) == (DefaultAuthHostname, "");
    assert ResolveClientID(env, DefaultAuthHostname) == Ok(ProdClientID);
  }

  /** With only DATUM_AUTH_HOSTNAME set to an `auth.` hostname under
      `datum.net`, login uses the staging or production client ID by its
      suffix and the API hostname with `auth.` replaced by `api.`. */
  lemma DerivedLoginTarget(env: Env, x: string)
    requires Getenv(env, "DATUM_AUTH_HOSTNAME") == "auth." + x && HasSuffix("auth." + x, ".datum.net")
    requires Getenv(env, "DATUM_API_HOSTNAME") == "" && Getenv(env, "DATUM_CLIENT_ID") == ""
    ensures LoginTargetOf(env) ==
      Ok(LoginTarget("auth." + x,
                     if HasSuffix("auth." + x, ".staging.env.datum.net") then StagingClientID else ProdClientID,
                     "api." + x))
  {
    AuthUtil.DeriveRoundTrip(x);
    assert DefaultHostnames(env) == ("auth." + x, "");
  }

  /** `auth.datum.net` is a production hostname, not a staging one. */
  lemma DefaultHostIsProduction()
    ensures HasSuffix(DefaultAuthHostname, ".datum.net")
    ensures !HasSuffix(DefaultAuthHostname, ".staging.env.datum.net")
  {
    var h := DefaultAuthHostname;
    assert h[|h| - 10..] == ".datum.net";
  }

  /** `auth.datum.net` derives `api.datum.net`. */
  lemma DefaultHostDerives()
    ensures AuthUtil.DeriveAPIHostname(DefaultAuthHostname) == Ok("api.datum.net")
  {
    AuthUtil.DeriveRoundTrip("datum.net");
    assert "auth." + "datum.net" == DefaultAuthHostname;
    assert "api." + "datum.net" == "api.datum.net";
  }

  // ---- ensure.go

  /** getenvBool: `1`, `true`, `TRUE`, `yes` are true; `0`, `false`,
      `FALSE`, `no` are false; anything else, the empty value included, is
      the default. */
  function GetenvBool(env: Env, k: string, def: bool): (r: bool)
    ensures Getenv(env, k) in {"1", "true", "TRUE", "yes"} ==> r
    ensures Getenv(env, k) in {"0", "false", "FALSE", "no"} ==> !r
    ensures Getenv(env, k) !in {"1", "true", "TRUE", "yes", "0", "false", "FALSE", "no"} ==> r == def
  {
    var v := Getenv(env, k);
    if v != "" then
      if v == "1" || v == "true" || v == "TRUE" || v == "yes" then true
      else if v == "0" || v == "false" || v == "FALSE" || v == "no" then false
      else def
    else def
  }

  /** Spellings outside the two lists, such as `True` or an unset
      variable, leave the default in place. */
  lemma GetenvBoolDefaults(env: Env, k: string, def: bool)
    requires Getenv(env, k) == "" || Getenv(env, k) == "True"
    ensures GetenvBool(env, k, def) == def
  {
    var v := Getenv(env, k);
    if v == "True" {
      assert v != "TRUE" by { assert v[1] != "TRUE"[1]; }
      assert v != "true" by { assert v[0] != "true"[0]; }
    }
  }

  /** Five minutes, in nanoseconds: how long a token without expiry is cached. */
  const FiveMinutes: int := 5 * 60 * 1_000_000_000

  /** An access token with its expiry; None is Go's zero time. */
  datatype Token = Token(accessToken: string, expiry: Option<int>)

  /** What asking the keyring token source gave: no token source, an error
      from Token(), or a token (possibly with an empty access token). */
  datatype Fetch = NoSource(err: string) | TokenFailed(err: string) | Got(token: Token)

  /** The answer of EnsureAuth and the cache it leaves behind. */
  datatype Ensured = Ensured(reply: Result<string, string>, token: string, expiry: Option<int>)

  /** `now.Before(expiry)`; the zero time is before every clock reading. */
  predicate Before(now: int, expiry: Option<int>) {
    expiry.Some? && now < expiry.value
  }

  /** The expiry cached for a fresh token: its own, or five minutes after `stamp`. */
  function CacheExpiry(t: Token, stamp: int): int {
    if t.expiry.Some? then t.expiry.value else stamp + FiveMinutes
  }

  /** EnsureAuth over the cache (`token`, `expiry`): `now` is the clock at
      the cache test and `stamp` the clock when a token without expiry is
      cached; `keyring` is the first token-source attempt, `login` the
      login flow's error if any, `afterLogin` the second attempt. */
  function EnsureAuthSpec(env: Env, token: string, expiry: Option<int>, now: int, stamp: int,
                          keyring: Fetch, login: Option<string>, afterLogin: Fetch): (o: Ensured)
    ensures o.reply.Ok? ==> o.reply.value != ""
    ensures o.reply.Err? ==> o.token == token && o.expiry == expiry
    ensures o.token != token || o.expiry != expiry ==>
      o.reply == Ok(o.token) && o.expiry.Some?
    ensures o.token != token || o.expiry != expiry ==>
      exists t: Token ::
        && (keyring == Got(t) || afterLogin == Got(t))
        && t.accessToken != ""
        && o.token == t.accessToken
        && o.expiry == Some(if t.expiry.Some? then t.expiry.value else stamp + FiveMinutes)
  {
    if Getenv(env, "DATUM_TOKEN") != "" then Ensured(Ok(Getenv(env, "DATUM_TOKEN")), token, expiry)
    else if token != "" && Before(now, expiry) then Ensured(Ok(token), token, expiry)
    else if keyring.Got? && keyring.token.accessToken != "" then
      Ensured(Ok(keyring.token.accessToken), keyring.token.accessToken, Some(CacheExpiry(keyring.token, stamp)))
    else if login.Some? then Ensured(Err(login.value), token, expiry)
    else
      match afterLogin
      case NoSource(e) => Ensured(Err("login succeeded but failed to get token source: " + e), token, expiry)
      case TokenFailed(e) => Ensured(Err("failed to retrieve access token after login: " + e), token, expiry)
      case Got(t) =>
        if t.accessToken == "" then Ensured(Err("failed to retrieve access token after login: <nil>"), token, expiry)
        else Ensured(Ok(t.accessToken), t.accessToken, Some(CacheExpiry(t, stamp)))
  }

  /** The precedence: a set DATUM_TOKEN is returned without touching the
      cache; otherwise a non-empty cached token is returned exactly while
      the clock is before its expiry; only then is a token source asked. */
  lemma Precedence(env: Env, token: string, expiry: Option<int>, now: int, stamp: int,
                   keyring: Fetch, login: Option<string>, afterLogin: Fetch)
    ensures var o := EnsureAuthSpec(env, token, expiry, now, stamp, keyring, login, afterLogin);
      && (Getenv(env, "DATUM_TOKEN") != "" ==>
            o == Ensured(Ok(env["DATUM_TOKEN"]), token, expiry))
      && (Getenv(env, "DATUM_TOKEN") == "" && token != "" && Before(now, expiry) ==>
            o == Ensured(Ok(token), token, expiry))
      && (Getenv(env, "DATUM_TOKEN") == "" && o.reply.Ok? && o.reply.value != token ==>
            !(token != "" && Before(now, expiry)) && o.token == o.reply.value)
  {
  }

  /** A token fetched from the keyring is cached so that the next call
      within its lifetime returns it without asking the token source. */
  lemma FetchedTokenIsReused(env: Env, token: string, expiry: Option<int>, now: int, stamp: int,
                             keyring: Fetch, login: Option<string>, afterLogin: Fetch,
                             later: int, keyring2: Fetch, login2: Option<string>, afterLogin2: Fetch)
    requires Getenv(env, "DATUM_TOKEN") == ""
    requires var o := EnsureAuthSpec(env, token, expiry, now, stamp, keyring, login, afterLogin);
      o.reply.Ok? && Before(later, o.expiry)
    ensures var o := EnsureAuthSpec(env, token, expiry, now, stamp, keyring, login, afterLogin);
      EnsureAuthSpec(env, o.token, o.expiry, later, stamp, keyring2, login2, afterLogin2).reply == o.reply
  {
  }

  /** When neither DATUM_TOKEN nor a still-valid cache answers, a non-empty
      keyring token is returned and cached with its own expiry, or with five
      minutes after `stamp` when it has none; the login flow is not consulted. */
  lemma KeyringTokenCached(env: Env, token: string, expiry: Option<int>, now: int, stamp: int,
                           t: Token, login: Option<string>, afterLogin: Fetch)
    requires Getenv(env, "DATUM_TOKEN") == "" && !(token != "" && Before(now, expiry))
    requires t.accessToken != ""
    ensures EnsureAuthSpec(env, token, expiry, now, stamp, Got(t), login, afterLogin) ==
      Ensured(Ok(t.accessToken), t.accessToken,
              Some(if t.expiry.Some? then t.expiry.value else stamp + FiveMinutes))
  {
  }

  /** When neither DATUM_TOKEN, a still-valid cache nor the keyring gives a
      token, the login flow decides: its error is returned, otherwise a
      non-empty token from the second token-source attempt is returned and
      cached like a keyring token, and any other attempt is an error that
      leaves the cache as it was. */
  lemma LoginFallback(env: Env, token: string, expiry: Option<int>, now: int, stamp: int,
                      keyring: Fetch, login: Option<string>, afterLogin: Fetch)
    requires Getenv(env, "DATUM_TOKEN") == "" && !(token != "" && Before(now, expiry))
    requires !(keyring.Got? && keyring.token.accessToken != "")
    ensures var o := EnsureAuthSpec(env, token, expiry, now, stamp, keyring, login, afterLogin);
      && (login.Some? ==> o == Ensured(Err(login.value), token, expiry))
      && (login.None? && afterLogin.Got? && afterLogin.token.accessToken != "" ==>
            o == Ensured(Ok(afterLogin.token.accessToken), afterLogin.token.accessToken,
                         Some(if afterLogin.token.expiry.Some? then afterLogin.token.expiry.value else stamp + FiveMinutes)))
      && (login.None? && afterLogin.NoSource? ==>
            o == Ensured(Err("login succeeded but failed to get token source: " + afterLogin.err), token, expiry))
      && (login.None? && afterLogin.TokenFailed? ==>
            o == Ensured(Err("failed to retrieve access token after login: " + afterLogin.err), token, expiry))
      && (login.None? && afterLogin.Got? && afterLogin.token.accessToken == "" ==>
            o == Ensured(Err("failed to retrieve access token after login: <nil>"), token, expiry))
  {
    var o := EnsureAuthSpec(env, token, expiry, now, stamp, keyring, login, afterLogin);
    if login.Some? {
      assert o == Ensured(Err(login.value), token, expiry);
    } else {
      match afterLogin
      case NoSource(e) =>
        assert o == Ensured(Err("login succeeded but failed to get token source: " + e), token, expiry);
      case TokenFailed(e) =>
        assert o == Ensured(Err("failed to retrieve access token after login: " + e), token, expiry);
      case Got(t) =>
        assert o.reply == (if t.accessToken == "" then Err("failed to retrieve access token after login: <nil>")
                           else Ok(t.accessToken));
    }
  }

  /** A fetched token without expiry is served from the cache until five
      minutes after it was cached and not at that instant. */
  lemma ZeroExpiryFiveMinutes(env: Env, token: string, expiry: Option<int>, now: int, stamp: int,
                              keyring: Fetch, login: Option<string>, afterLogin: Fetch, t: Token)
    requires Getenv(env, "DATUM_TOKEN") == "" && !(token != "" && Before(now, expiry))
    requires keyring == Got(t) || (login.None? && afterLogin == Got(t) && !(keyring.Got? && keyring.token.accessToken != ""))
    requires t.accessToken != "" && t.expiry.None?
    ensures var o := EnsureAuthSpec(env, token, expiry, now, stamp, keyring, login, afterLogin);
      && Before(stamp + FiveMinutes - 1, o.expiry)
      && !Before(stamp + FiveMinutes, o.expiry)
  {
  }

  /** The package-level cachedToken and cachedExpiry of ensure.go. */
  class TokenCache {
    var cachedToken: string
    var cachedExpiry: Option<int>

    /** The zero values the program starts with. */
    constructor()
      ensures cachedToken == "" && cachedExpiry == None
    {
      cachedToken := "";
      cachedExpiry := None;
    }

    /** EnsureAuth, step by step over the cache. */
    method EnsureAuth(env: Env, now: int, stamp: int, keyring: Fetch, login: Option<string>, afterLogin: Fetch)
      returns (r: Result<string, string>)
      modifies this
      ensures var o := EnsureAuthSpec(env, old(cachedToken), old(cachedExpiry), now, stamp, keyring, login, afterLogin);
        r == o.reply && cachedToken == o.token && cachedExpiry == o.expiry
    {
      var tok := Getenv(env, "DATUM_TOKEN");
      if tok != "" {
        return Ok(tok);
      }
      if cachedToken != "" && Before(now, cachedExpiry) {
        return Ok(cachedToken);
      }
      if keyring.Got? && keyring.token.accessToken != "" {
        var t := keyring.token;
        cachedToken := t.accessToken;
        if t.expiry.Some? {
          cachedExpiry := t.expiry;
        } else {
          cachedExpiry := Some(stamp + FiveMinutes);
        }
        return Ok(cachedToken);
      }
      if login.Some? {
        return Err(login.value);
      }
      match afterLogin {
        case NoSource(e) =>
          return Err("login succeeded but failed to get token source: " + e);
        case TokenFailed(e) =>
          return Err("failed to retrieve access token after login: " + e);
        case Got(t) =>
          if t.accessToken == "" {
            return Err("failed to retrieve access token after login: <nil>");
          }
          cachedToken := t.accessToken;
          if t.expiry.Some? {
            cachedExpiry := t.expiry;
          } else {
            cachedExpiry := Some(stamp + FiveMinutes);
          }
          return Ok(cachedToken);
      }
    }
  }
}
