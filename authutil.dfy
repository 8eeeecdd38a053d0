/**
 * The API-hostname rules of internal/authutil/authutil.go. The keyring
 * lookups behind GetActiveCredentials are not modelled: the stored
 * credentials are a parameter.
 */
module AuthUtil {
  import opened Wrappers
  import opened Strings

  /** The two hostnames of StoredCredentials the hostname choice reads. */
  datatype Credentials = Credentials(hostname: string, apiHostname: string)

  /** DeriveAPIHostname: `auth.X` becomes `api.X`; an empty hostname and
      any other hostname are errors. */
  function DeriveAPIHostname(authHostname: string): (r: Result<string, string>)
    ensures r.Ok? <==> HasPrefix(authHostname, "auth.")
    ensures r.Ok? ==> HasPrefix(r.value, "api.") && r.value[4..] == authHostname[5..]
    ensures authHostname == "" ==> r == Err("cannot derive API hostname from empty auth hostname")
    ensures authHostname != "" && r.Err? ==> r.error == "could not derive API hostname from '" + authHostname + "'"
  {
    if authHostname == "" then Err("cannot derive API hostname from empty auth hostname")
    else if HasPrefix(authHostname, "auth.") then Ok("api." + TrimPrefix(authHostname, "auth."))
    else Err("could not derive API hostname from '" + authHostname + "'")
  }

  /** Deriving is invertible: the auth hostname is `auth.` followed by what
      follows `api.` in the derived one, and any `auth.X` derives `api.X`. */
  lemma DeriveRoundTrip(x: string)
    ensures DeriveAPIHostname("auth." + x) == Ok("api." + x)
    ensures var r := DeriveAPIHostname("auth." + x); "auth." + TrimPrefix(r.value, "api.") == "auth." + x
  {
    assert HasPrefix("auth." + x, "auth.");
    assert ("auth." + x)[5..] == x;
    assert HasPrefix("api." + x, "api.");
  }

  /** The hostname choice of GetAPIHostname once the credentials are loaded:
      a stored API hostname wins, otherwise it is derived. */
  function APIHostname(creds: Credentials): (r: Result<string, string>)
    ensures creds.apiHostname != "" ==> r == Ok(creds.apiHostname)
    ensures creds.apiHostname == "" ==> r == DeriveAPIHostname(creds.hostname)
    ensures r.Ok? ==> r.value != ""
  {
    if creds.apiHostname != "" then Ok(creds.apiHostname) else DeriveAPIHostname(creds.hostname)
  }

  /** A successful choice is either the stored hostname or `api.` followed
      by the part of the auth hostname after `auth.`. */
  lemma APIHostnameCases(creds: Credentials)
    requires APIHostname(creds).Ok?
    ensures var h := APIHostname(creds).value;
      h == creds.apiHostname
      || (creds.apiHostname == "" && HasPrefix(creds.hostname, "auth.") && h == "api." + creds.hostname[5..])
  {
    if creds.apiHostname == "" {
      var h := APIHostname(creds).value;
      assert h[..4] == "api." && h[4..] == creds.hostname[5..];
      assert h == h[..4] + h[4..];
    }
  }
}
