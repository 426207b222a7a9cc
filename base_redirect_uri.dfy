/** The origin the auth flows send users back to, chosen from the deployment's
    environment. */
module BaseRedirectUri {
  import opened Wrappers
  import opened Strings

  const LOCAL_ORIGIN: string := "http://localhost:3001"

  /** The three environment variables read: the configured site, the hosting
      platform's deployment address and the base address; None is unset. */
  datatype Environment = Environment(siteUrl: Option<string>, vercelUrl: Option<string>, baseUrl: Option<string>)

  /** `getBaseRedirectUri`: the first set, non-empty variable behind
      `https://`, else the local development origin. */
  function GetBaseRedirectUri(env: Environment): (uri: string)
    ensures Truthy(env.siteUrl) ==> uri == "https://" + env.siteUrl.value
    ensures !Truthy(env.siteUrl) && Truthy(env.vercelUrl) ==> uri == "https://" + env.vercelUrl.value
    ensures !Truthy(env.siteUrl) && !Truthy(env.vercelUrl) && Truthy(env.baseUrl) ==>
              uri == "https://" + env.baseUrl.value
    ensures !Truthy(env.siteUrl) && !Truthy(env.vercelUrl) && !Truthy(env.baseUrl) ==> uri == LOCAL_ORIGIN
  {
    if Truthy(env.siteUrl) then "https://" + env.siteUrl.value
    else if Truthy(env.vercelUrl) then "https://" + env.vercelUrl.value
    else if Truthy(env.baseUrl) then "https://" + env.baseUrl.value
    else LOCAL_ORIGIN
  }

  /** The result is a secure origin exactly when some variable is set to a
      non-empty value, and an empty value counts as unset. */
  lemma SecureIffConfigured(env: Environment)
    ensures StartsWith(GetBaseRedirectUri(env), "https://") <==>
              Truthy(env.siteUrl) || Truthy(env.vercelUrl) || Truthy(env.baseUrl)
    ensures GetBaseRedirectUri(env) == GetBaseRedirectUri(Environment(
              if Truthy(env.siteUrl) then env.siteUrl else None,
              if Truthy(env.vercelUrl) then env.vercelUrl else None,
              if Truthy(env.baseUrl) then env.baseUrl else None))
  {
    var uri := GetBaseRedirectUri(env);
    if Truthy(env.siteUrl) || Truthy(env.vercelUrl) || Truthy(env.baseUrl) {
      assert uri[..8] == "https://";
    } else {
      assert uri[4] != "https://"[4];
    }
  }
}
