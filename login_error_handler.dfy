/** The landing page's sign-in error handler: an `error` query parameter makes
    it throw, with a dedicated error when the streaming service refused an
    account the app is not authorized for. */
module LoginErrorHandler {
  import opened Wrappers
  import opened Strings

  const SPOTIFY_APP_AUTHORIZATION_DIGEST: string := "SPOTIFY_APP_AUTHORIZATION"
  const DEFAULT_DESCRIPTION: string := "Error Signing In"

  /** `/"([^"]*)"/` on `s`: the text between the first double quote and the
      next one, or None when there are not two. */
  function FirstQuoted(s: string): (r: Option<string>)
    ensures r.None? <==> (FindChar(s, '"', 0).None? || FindChar(s, '"', FindChar(s, '"', 0).value + 1).None?)
    ensures r.Some? ==> forall k :: 0 <= k < |r.value| ==> r.value[k] != '"'
  {
    match FindChar(s, '"', 0)
    case None => None
    case Some(i) =>
      match FindChar(s, '"', i + 1)
      case None => None
      case Some(j) => Some(s[i + 1..j])
  }

  /** The quoted text is read back exactly from a description that quotes
      it first. */
  lemma FirstQuotedRoundTrip(before: string, email: string, after: string)
    requires forall k :: 0 <= k < |before| ==> before[k] != '"'
    requires forall k :: 0 <= k < |email| ==> email[k] != '"'
    ensures FirstQuoted(before + "\"" + email + "\"" + after) == Some(email)
  {
    var s := before + "\"" + email + "\"" + after;
    assert s[|before|] == '"';
    assert forall k :: 0 <= k < |before| ==> s[k] == before[k];
    assert FindChar(s, '"', 0) == Some(|before|);
    assert s[|before| + 1 + |email|] == '"';
    assert forall k :: |before| + 1 <= k < |before| + 1 + |email| ==> s[k] == email[k - |before| - 1];
    assert FindChar(s, '"', |before| + 1) == Some(|before| + 1 + |email|);
    assert s[|before| + 1..|before| + 1 + |email|] == email;
  }

  /** What the handler throws. */
  datatype Thrown =
    | LoginError(message: string, digest: string, email: Option<string>)
    | PlainError(message: string)

  /** `AppErrorHandler`: `error` and `errorDescription` are the query's
      `error` and `error_description` parameters; None means nothing is
      thrown. */
  function AppErrorHandler(error: Option<string>, errorDescription: Option<string>): (r: Option<Thrown>)
    ensures r.None? <==> !Truthy(error)
    ensures r.Some? ==> r.value.message == errorDescription.GetOr(DEFAULT_DESCRIPTION)
    ensures r.Some? ==> (r.value.LoginError? <==> EndsWith(errorDescription.GetOr(DEFAULT_DESCRIPTION), "not authorized"))
    ensures r.Some? && r.value.LoginError? ==>
              r.value.digest == SPOTIFY_APP_AUTHORIZATION_DIGEST &&
              r.value.email == FirstQuoted(errorDescription.GetOr(DEFAULT_DESCRIPTION))
  {
    if !Truthy(error) then None
    else
      var description := errorDescription.GetOr(DEFAULT_DESCRIPTION);
      if EndsWith(description, "not authorized") then
        Some(LoginError(description, SPOTIFY_APP_AUTHORIZATION_DIGEST, FirstQuoted(description)))
      else Some(PlainError(description))
  }

  /** A refusal naming the account in quotes is reported as the dedicated
      error carrying that account's email. */
  lemma NotAuthorizedCarriesEmail(email: string)
    requires forall k :: 0 <= k < |email| ==> email[k] != '"'
    ensures var description := "User " + "\"" + email + "\"" + " not authorized";
            AppErrorHandler(Some("access_denied"), Some(description))
            == Some(LoginError(description, SPOTIFY_APP_AUTHORIZATION_DIGEST, Some(email)))
  {
    var description := "User " + "\"" + email + "\"" + " not authorized";
    FirstQuotedRoundTrip("User ", email, " not authorized");
    EndsWithAppend("User " + "\"" + email + "\" ", "not authorized");
    assert description == ("User " + "\"" + email + "\" ") + "not authorized";
  }

  /** Without a description the default plain error is thrown. */
  lemma MissingDescriptionIsDefault()
    ensures AppErrorHandler(Some("access_denied"), None) == Some(PlainError(DEFAULT_DESCRIPTION))
  {
    assert DEFAULT_DESCRIPTION[|DEFAULT_DESCRIPTION| - 14] != "not authorized"[0];
  }
}
