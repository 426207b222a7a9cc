/** The auth pages' error banner: an error reported in the URL fragment is
    cleaned up, kept as component state and shown, with a hint appended to
    the confirmation-email message. */
module AuthErrorHandler {
  import opened Wrappers
  import opened Strings
  import opened Sequences

  const CONFIRMATION_SENT: string := "confirmation email has been sent"
  const SPAM_HINT: string := ". \n\nBe sure to check your spam folder if you don't receive the email."

  /** `window.location.hash.substring(1)`: the fragment without its `#`. */
  function HashBody(hash: string): (r: string)
    ensures |hash| > 0 ==> r == hash[1..]
    ensures |hash| == 0 ==> r == ""
  {
    if |hash| == 0 then "" else hash[1..]
  }

  /** `pieces` joined with `c` between consecutive ones. */
  function Join(pieces: seq<string>, c: char): string
    requires |pieces| > 0
  {
    if |pieces| == 1 then pieces[0] else pieces[0] + [c] + Join(pieces[1..], c)
  }

  /** `s.split(c)` for a one-character separator. */
  function SplitOn(s: string, c: char): (r: seq<string>)
    ensures |r| > 0
    ensures forall i, k :: 0 <= i < |r| && 0 <= k < |r[i]| ==> r[i][k] != c
    ensures Join(r, c) == s
    decreases |s|
  {
    match FindChar(s, c, 0)
    case None => [s]
    case Some(i) =>
      var rest := SplitOn(s[i + 1..], c);
      var r := [s[..i]] + rest;
      assert r[1..] == rest;
      assert s == s[..i] + [c] + s[i + 1..];
      r
  }

  /** The input with one leading `?` dropped, as `URLSearchParams` drops it. */
  function QueryBody(query: string): (r: string)
    ensures |query| > 0 && query[0] == '?' ==> r == query[1..]
    ensures !(|query| > 0 && query[0] == '?') ==> r == query
  {
    if |query| > 0 && query[0] == '?' then query[1..] else query
  }

  /** `&`-separated pieces, empty ones skipped, each split at its first `=`
      (a name alone has the empty value); `decode` is the form-urlencoded
      decoding of each part. */
  function ParsePairs(body: string, decode: string -> string): seq<(string, string)> {
    var pieces := Filter(SplitOn(body, '&'), (p: string) => p != "");
    Map(pieces, (p: string) =>
      match FindChar(p, '=', 0)
      case None => (decode(p), "")
      case Some(i) => (decode(p[..i]), decode(p[i + 1..])))
  }

  /** A query string as `URLSearchParams` reads it. */
  function ParseQuery(query: string, decode: string -> string): seq<(string, string)> {
    ParsePairs(QueryBody(query), decode)
  }

  /** A `?` in front of a query changes nothing: `?a=b` parses as `a=b`. */
  lemma LeadingQuestionMarkIgnored(query: string, decode: string -> string)
    requires |query| == 0 || query[0] != '?'
    ensures ParseQuery("?" + query, decode) == ParseQuery(query, decode)
  {
    assert ("?" + query)[1..] == query;
  }

  /** A string without the separator splits into itself alone. */
  lemma SplitOnAbsent(s: string, c: char)
    requires forall k :: 0 <= k < |s| ==> s[k] != c
    ensures SplitOn(s, c) == [s]
  {
    assert FindChar(s, c, 0).None?;
  }

  /** In `name=value` with no `=` in the name, the first `=` follows the name. */
  lemma FirstEquals(name: string, value: string)
    requires forall k :: 0 <= k < |name| ==> name[k] != '='
    ensures FindChar(name + "=" + value, '=', 0) == Some(|name|)
  {
    var s := name + "=" + value;
    assert s[|name|] == '=';
    assert forall k :: 0 <= k < |name| ==> s[k] == name[k];
  }

  /** A character other than `=` that neither part has is not in `name=value`. */
  lemma PairLacks(name: string, value: string, c: char)
    requires c != '='
    requires forall k :: 0 <= k < |name| ==> name[k] != c
    requires forall k :: 0 <= k < |value| ==> value[k] != c
    ensures forall k :: 0 <= k < |name + "=" + value| ==> (name + "=" + value)[k] != c
  {
    var s := name + "=" + value;
    forall k | 0 <= k < |s|
      ensures s[k] != c
    {
      if k < |name| {
        assert s[k] == name[k];
      } else if k > |name| {
        assert s[k] == value[k - |name| - 1];
      }
    }
  }

  /** One `name=value` piece, with no `&` in it and no `=` in the name,
      parses to the one decoded pair. */
  lemma SinglePair(name: string, value: string, decode: string -> string)
    requires forall k :: 0 <= k < |name| ==> name[k] != '&' && name[k] != '='
    requires forall k :: 0 <= k < |value| ==> value[k] != '&'
    ensures ParsePairs(name + "=" + value, decode) == [(decode(name), decode(value))]
  {
    var s := name + "=" + value;
    PairLacks(name, value, '&');
    SplitOnAbsent(s, '&');
    FilterSingleton(s, (p: string) => p != "");
    FirstEquals(name, value);
    assert s[..|name|] == name && s[|name| + 1..] == value;
  }

  /** A fragment `#?error=…` reports its error: the `?` before the query
      does not hide the first parameter. */
  lemma QuestionFragmentReportsError(value: string, decode: string -> string)
    requires forall k :: 0 <= k < |value| ==> value[k] != '&'
    requires decode("error") == "error"
    ensures Get(ParseQuery(HashBody("#?error=" + value), decode), "error") == Some(decode(value))
  {
    var body := "error" + "=" + value;
    assert HashBody("#?error=" + value) == "?" + body;
    assert QueryBody("?" + body) == body;
    SinglePair("error", value, decode);
  }

  /** `params.get(name)`: the first value under `name`. */
  function Get(params: seq<(string, string)>, name: string): (r: Option<string>)
    ensures r.None? <==> forall i :: 0 <= i < |params| ==> params[i].0 != name
    ensures r.Some? ==> exists i :: 0 <= i < |params| && params[i] == (name, r.value) &&
                                    forall j :: 0 <= j < i ==> params[j].0 != name
  {
    if |params| == 0 then None
    else if params[0].0 == name then
      assert params[0] == (name, params[0].1);
      Some(params[0].1)
    else
      var r := Get(params[1..], name);
      assert forall i :: 1 <= i < |params| ==> params[1..][i - 1] == params[i];
      if r.Some? then
        var i :| 0 <= i < |params[1..]| && params[1..][i] == (name, r.value) &&
                 forall j :: 0 <= j < i ==> params[1..][j].0 != name;
        assert params[i + 1] == (name, r.value);
        r
      else r
  }

  /** `s.split(sep)[0]`: the text before the first occurrence of `sep`, or
      all of `s`. */
  function PrefixBefore(s: string, sep: string): (r: string)
    requires |sep| > 0
    ensures StartsWith(s, r)
    ensures forall k :: 0 <= k < |r| ==> !OccursAt(s, sep, k)
    ensures |r| < |s| ==> OccursAt(s, sep, |r|)
  {
    match FindSubstring(s, sep, 0)
    case None => s
    case Some(i) => s[..i]
  }

  /** `.replace(/\+/g, ' ')` */
  function PlusToSpace(s: string): (r: string)
    ensures |r| == |s|
    ensures forall k :: 0 <= k < |s| ==> r[k] == if s[k] == '+' then ' ' else s[k]
  {
    Map(s, (ch: char) => if ch == '+' then ' ' else ch)
  }

  /** The shown error from an `error_description`. */
  function CleanError(description: string): string {
    PlusToSpace(PrefixBefore(description, "%3A"))
  }

  /** The error text is the description up to the first `%3A`, letter for
      letter except that each `+` reads as a space. */
  lemma CleanErrorSpec(description: string)
    ensures |CleanError(description)| <= |description|
    ensures forall k :: 0 <= k < |CleanError(description)| ==>
              CleanError(description)[k] == if description[k] == '+' then ' ' else description[k]
    ensures forall k :: 0 <= k < |CleanError(description)| ==> !OccursAt(description, "%3A", k)
    ensures |CleanError(description)| < |description| ==> OccursAt(description, "%3A", |CleanError(description)|)
  {
  }

  /** `extendErrorMessage`. */
  function ExtendErrorMessage(message: string): (r: string)
    ensures Contains(message, CONFIRMATION_SENT) ==> r == message + SPAM_HINT
    ensures !Contains(message, CONFIRMATION_SENT) ==> r == message
  {
    if Contains(message, CONFIRMATION_SENT) then message + SPAM_HINT else message
  }

  /** The component's error state. */
  class AuthErrorState {
    var error: Option<string>

    /** `useState(undefined)`. */
    constructor ()
      ensures error == None
    {
      error := None;
    }

    /** The effect that reads the fragment: a truthy `error` parameter sets
        the state to the cleaned description (none without a description);
        otherwise a set error is cleared. */
    method ReadHash(hash: string, decode: string -> string)
      modifies this
      ensures var params := ParseQuery(HashBody(hash), decode);
              && (Truthy(Get(params, "error")) && Get(params, "error_description").Some? ==>
                    error == Some(CleanError(Get(params, "error_description").value)))
              && (Truthy(Get(params, "error")) && Get(params, "error_description").None? ==> error == None)
              && (!Truthy(Get(params, "error")) && Truthy(old(error)) ==> error == None)
              && (!Truthy(Get(params, "error")) && !Truthy(old(error)) ==> error == old(error))
    {
      var params := ParseQuery(HashBody(hash), decode);
      if Truthy(Get(params, "error")) {
        var errorDescription := Get(params, "error_description");
        var cleanedError := if errorDescription.Some? then Some(CleanError(errorDescription.value)) else None;
        error := cleanedError;
      } else {
        if Truthy(error) {
          error := None;
        }
      }
    }

    /** What is rendered: nothing for a missing or empty error, otherwise the
        extended message. */
    function Shown(): (r: Option<string>)
      reads this
      ensures r.None? <==> !Truthy(error)
      ensures r.Some? ==> r.value == ExtendErrorMessage(error.value)
    {
      if !Truthy(error) then None else Some(ExtendErrorMessage(error.value))
    }
  }

  /** The hint is added after the message, never in place of it. */
  lemma ExtendKeepsMessage(message: string)
    ensures StartsWith(ExtendErrorMessage(message), message)
    ensures |ExtendErrorMessage(message)| > |message| <==> Contains(message, CONFIRMATION_SENT)
  {
    assert (message + SPAM_HINT)[..|message|] == message;
  }
}
