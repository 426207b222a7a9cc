/** The authorization-request email and its rate limit: a cookie holds how
    many emails were sent since its window opened; an older window is
    restarted, and a full one refuses to send. Times are milliseconds. */
module AuthEmailRateLimit {
  import opened Wrappers

  const RATE_LIMIT_DURATION: int := 24 * 60 * 60 * 1000
  const MAX_REQUESTS: int := 3

  /** The cookie's value. */
  datatype RateLimit = RateLimit(count: int, timestamp: int)

  datatype Outcome =
    | MissingAuthorEmail   // throws `AUTHOR_EMAIL is not set`
    | RateLimited          // throws `Rate limit exceeded. Please try again later.`
    | Sent                 // success
    | SendFailed           // success false, `Error sending authorization email: ...`

  /** The state the request is judged by: a fresh one without a cookie, and
      a restarted one once the window is more than a day old. */
  function Window(cookie: Option<RateLimit>, now: int): (w: RateLimit)
    ensures cookie.None? ==> w == RateLimit(0, now)
    ensures cookie.Some? && now - cookie.value.timestamp > RATE_LIMIT_DURATION ==> w == RateLimit(0, now)
    ensures cookie.Some? && now - cookie.value.timestamp <= RATE_LIMIT_DURATION ==> w == cookie.value
  {
    var rateLimit := cookie.GetOr(RateLimit(0, now));
    if now - rateLimit.timestamp > RATE_LIMIT_DURATION then RateLimit(0, now) else rateLimit
  }

  /** One call: the outcome and the cookie afterwards. */
  function Step(cookie: Option<RateLimit>, authorEmail: Option<string>, now: int, sendThrows: bool)
    : (r: (Outcome, Option<RateLimit>))
    ensures !Truthy(authorEmail) ==> r == (MissingAuthorEmail, cookie)
    ensures Truthy(authorEmail) && Window(cookie, now).count >= MAX_REQUESTS ==> r == (RateLimited, cookie)
    ensures Truthy(authorEmail) && Window(cookie, now).count < MAX_REQUESTS && sendThrows ==> r == (SendFailed, cookie)
    ensures Truthy(authorEmail) && Window(cookie, now).count < MAX_REQUESTS && !sendThrows ==>
              r == (Sent, Some(Window(cookie, now).(count := Window(cookie, now).count + 1)))
  {
    if !Truthy(authorEmail) then (MissingAuthorEmail, cookie)
    else
      var w := Window(cookie, now);
      if w.count >= MAX_REQUESTS then (RateLimited, cookie)
      else if sendThrows then (SendFailed, cookie)
      else (Sent, Some(w.(count := w.count + 1)))
  }

  /** The cookie store holding the rate-limit cookie. */
  class CookieStore {
    var rateLimit: Option<RateLimit>

    constructor (cookie: Option<RateLimit>)
      ensures rateLimit == cookie
    {
      rateLimit := cookie;
    }

    /** `sendAuthorizationEmail`: `authorEmail` is the configured recipient,
        `sendThrows` whether the mail service throws. */
    method SendAuthorizationEmail(authorEmail: Option<string>, now: int, sendThrows: bool)
      returns (outcome: Outcome)
      modifies this
      ensures (outcome, rateLimit) == Step(old(rateLimit), authorEmail, now, sendThrows)
    {
      if !Truthy(authorEmail) {
        return MissingAuthorEmail;
      }
      var current := if rateLimit.Some? then rateLimit.value else RateLimit(0, now);
      if now - current.timestamp > RATE_LIMIT_DURATION {
        current := RateLimit(0, now);
      }
      if current.count >= MAX_REQUESTS {
        return RateLimited;
      }
      if sendThrows {
        return SendFailed;
      }
      current := current.(count := current.count + 1);
      rateLimit := Some(current);
      outcome := Sent;
    }
  }

  /** A call: its time and whether the mail service throws. */
  datatype Call = Call(now: int, sendThrows: bool)

  /** The cookie after a run of calls, and how many emails went out. */
  function Run(cookie: Option<RateLimit>, authorEmail: Option<string>, calls: seq<Call>)
    : (Option<RateLimit>, nat)
    decreases |calls|
  {
    if |calls| == 0 then (cookie, 0)
    else
      var s := Step(cookie, authorEmail, calls[0].now, calls[0].sendThrows);
      var rest := Run(s.1, authorEmail, calls[1..]);
      (rest.0, rest.1 + if s.0 == Sent then 1 else 0)
  }

  /** A cookie the code wrote never records more than the cap. */
  lemma StepKeepsCap(cookie: Option<RateLimit>, authorEmail: Option<string>, now: int, sendThrows: bool)
    requires cookie.Some? ==> cookie.value.count <= MAX_REQUESTS
    ensures var r := Step(cookie, authorEmail, now, sendThrows).1;
            r.Some? ==> r.value.count <= MAX_REQUESTS
  {
  }

  /** Inside one window, at most the cap of emails go out, and the cookie
      counts each of them: from a cookie opened at `timestamp`, calls no
      later than a day after it send at most `3 - count` emails. */
  lemma {:induction false} AtMostThreePerWindow(rl: RateLimit, authorEmail: Option<string>, calls: seq<Call>)
    requires 0 <= rl.count
    requires forall i :: 0 <= i < |calls| ==> calls[i].now - rl.timestamp <= RATE_LIMIT_DURATION
    ensures var r := Run(Some(rl), authorEmail, calls);
            && r.1 <= (if rl.count >= MAX_REQUESTS then 0 else MAX_REQUESTS - rl.count)
            && r.0.Some? && r.0.value.timestamp == rl.timestamp
            && r.0.value.count == rl.count + r.1
    decreases |calls|
  {
    if |calls| > 0 {
      var s := Step(Some(rl), authorEmail, calls[0].now, calls[0].sendThrows);
      assert s.1.Some?;
      assert s.1.value.timestamp == rl.timestamp;
      assert forall i :: 0 <= i < |calls[1..]| ==> calls[1..][i] == calls[i + 1];
      AtMostThreePerWindow(s.1.value, authorEmail, calls[1..]);
    }
  }

  /** Without a configured recipient no call reads or writes the cookie and
      nothing is sent. */
  lemma {:induction false} NoRecipientNoChange(cookie: Option<RateLimit>, calls: seq<Call>)
    ensures Run(cookie, None, calls) == (cookie, 0)
    ensures Run(cookie, Some(""), calls) == (cookie, 0)
    decreases |calls|
  {
    if |calls| > 0 {
      NoRecipientNoChange(cookie, calls[1..]);
    }
  }

  /** A window more than a day old is restarted, so a caller at the cap can
      send again a day after the window opened, and not a millisecond sooner. */
  lemma WindowBoundary(rl: RateLimit, authorEmail: string)
    requires rl.count >= MAX_REQUESTS && authorEmail != ""
    ensures Step(Some(rl), Some(authorEmail), rl.timestamp + RATE_LIMIT_DURATION, false).0 == RateLimited
    ensures Step(Some(rl), Some(authorEmail), rl.timestamp + RATE_LIMIT_DURATION + 1, false)
            == (Sent, Some(RateLimit(1, rl.timestamp + RATE_LIMIT_DURATION + 1)))
  {
  }
}
