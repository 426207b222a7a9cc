/** The account menu's choice of what to show as the user's name: the
    provider id, unless it looks machine-generated, then the email. The
    classifier tests its rules in order and the first that applies decides. */
module UserDropdown {
  import opened Strings

  predicate IsLower(c: char) {
    'a' <= c <= 'z'
  }

  predicate IsUpper(c: char) {
    'A' <= c <= 'Z'
  }

  /** `[a-zA-Z]` */
  predicate IsLetter(c: char) {
    IsLower(c) || IsUpper(c)
  }

  /** `[a-zA-Z0-9]` */
  predicate IsAlphanumeric(c: char) {
    IsLetter(c) || IsDigit(c)
  }

  predicate AllLetters(s: string) {
    forall i :: 0 <= i < |s| ==> IsLetter(s[i])
  }

  predicate AllDigits(s: string) {
    forall i :: 0 <= i < |s| ==> IsDigit(s[i])
  }

  /** `/[^a-zA-Z0-9]/` finds a character. */
  predicate HasSpecialCharacter(s: string) {
    exists i :: 0 <= i < |s| && !IsAlphanumeric(s[i])
  }

  /** `/^[a-z0-9]{28}$/` */
  predicate SpotifyIdShape(s: string) {
    |s| == 28 && forall i :: 0 <= i < |s| ==> IsLower(s[i]) || IsDigit(s[i])
  }

  /** The index after the run of `s[i]` that starts at `i`. */
  function RunEnd(s: string, i: nat): (j: nat)
    requires i < |s|
    ensures i < j <= |s|
    ensures forall k :: i <= k < j ==> s[k] == s[i]
    ensures j < |s| ==> s[j] != s[i]
    decreases |s| - i
  {
    if i + 1 < |s| && s[i + 1] == s[i] then RunEnd(s, i + 1) else i + 1
  }

  /** How many matches `/(.)\1+/g` finds from position `i`: a match takes a
      character and every copy of it that follows, and the search resumes
      after the match. */
  function MatchesFrom(s: string, i: nat): nat
    requires i <= |s|
    decreases |s| - i
  {
    if i + 1 >= |s| then 0
    else if s[i + 1] == s[i] then 1 + MatchesFrom(s, RunEnd(s, i))
    else MatchesFrom(s, i + 1)
  }

  /** `i` is where a run of at least two equal characters begins. */
  predicate RunStart(s: string, i: int) {
    0 <= i && i + 1 < |s| && s[i + 1] == s[i] && (i == 0 || s[i - 1] != s[i])
  }

  /** The number of maximal runs of length two or more among the first `n`
      characters, counted by where each run begins. */
  function RepeatedRuns(s: string, n: nat): nat
    requires n <= |s|
  {
    if n == 0 then 0 else RepeatedRuns(s, n - 1) + if RunStart(s, n - 1) then 1 else 0
  }

  /** Nothing starts a run strictly inside a run. */
  lemma {:induction false} NoRunStartInside(s: string, i: nat, k: nat)
    requires i < |s| && i < k < RunEnd(s, i)
    ensures !RunStart(s, k)
  {
  }

  lemma {:induction false} RunsBetweenRunStartAndEnd(s: string, i: nat, n: nat)
    requires i < |s| && i < n <= RunEnd(s, i)
    ensures RepeatedRuns(s, n) == RepeatedRuns(s, i + 1)
    decreases n
  {
    if n > i + 1 {
      RunsBetweenRunStartAndEnd(s, i, n - 1);
      NoRunStartInside(s, i, n - 1);
    }
  }

  /** The scanning count from a position that no run straddles equals the
      count of runs beginning from there on. */
  lemma {:induction false} MatchesFromCountsRuns(s: string, i: nat)
    requires i <= |s|
    requires i == 0 || i == |s| || s[i - 1] != s[i]
    ensures MatchesFrom(s, i) + RepeatedRuns(s, i) == RepeatedRuns(s, |s|)
    decreases |s| - i
  {
    if i + 1 >= |s| {
      if i + 1 == |s| {
        assert !RunStart(s, i);
      }
    } else if s[i + 1] == s[i] {
      var j := RunEnd(s, i);
      assert RunStart(s, i);
      RunsBetweenRunStartAndEnd(s, i, j);
      MatchesFromCountsRuns(s, j);
    } else {
      assert !RunStart(s, i);
      MatchesFromCountsRuns(s, i + 1);
    }
  }

  /** `(str.match(/(.)\1+/g) || []).length` is the number of maximal runs. */
  lemma RepeatingPatternsAreRuns(s: string)
    ensures MatchesFrom(s, 0) == RepeatedRuns(s, |s|)
  {
    MatchesFromCountsRuns(s, 0);
  }

  function CountDigits(s: string): (n: nat)
    ensures n <= |s|
  {
    if |s| == 0 then 0 else CountDigits(s[..|s| - 1]) + if IsDigit(s[|s| - 1]) then 1 else 0
  }

  function CountLetters(s: string): (n: nat)
    ensures n <= |s|
  {
    if |s| == 0 then 0 else CountLetters(s[..|s| - 1]) + if IsLetter(s[|s| - 1]) then 1 else 0
  }

  /** `/^[a-zA-Z]+\d{1,4}$/` */
  predicate LettersThenFewDigits(s: string) {
    exists k :: 1 <= k < |s| && |s| - k <= 4 && AllLetters(s[..k]) && AllDigits(s[k..])
  }

  predicate IsSeparator(c: char) {
    c == '.' || c == '_' || c == '-'
  }

  /** `/^[a-zA-Z]{2,}[._-]?[a-zA-Z]{2,}$/` */
  predicate WordWord(s: string) {
    exists k :: 2 <= k && k + 2 <= |s| && AllLetters(s[..k]) &&
      (AllLetters(s[k..]) || (IsSeparator(s[k]) && k + 3 <= |s| && AllLetters(s[k + 1..])))
  }

  /** `/^[a-zA-Z]+$/` */
  predicate JustLetters(s: string) {
    |s| > 0 && AllLetters(s)
  }

  /** `/[A-Z]/` and `/[a-z]/` both find a character. */
  predicate MixedCase(s: string) {
    (exists i :: 0 <= i < |s| && IsUpper(s[i])) && (exists i :: 0 <= i < |s| && IsLower(s[i]))
  }

  datatype Reason =
    | SpecialCharacters | AllNumbers | SpotifyIdPattern | RepeatingPatterns
    | HighNumberRatio | CommonUsernamePattern | LongMixedCase | DefaultCase

  function ReasonText(r: Reason): string {
    match r
    case SpecialCharacters => "Contains special characters"
    case AllNumbers => "All numbers"
    case SpotifyIdPattern => "Matches Spotify ID pattern"
    case RepeatingPatterns => "Contains repeating patterns"
    case HighNumberRatio => "High number ratio"
    case CommonUsernamePattern => "Matches common username pattern"
    case LongMixedCase => "Long with mixed case"
    case DefaultCase => "Default case"
  }

  datatype DetectionResult = DetectionResult(isLikelyRandomId: bool, reason: Reason)

  /** The ratio test `numbers / str.length > 0.4` in integers. */
  predicate HighRatio(s: string) {
    CountDigits(s) > 0 && CountLetters(s) > 0 && 10 * CountDigits(s) > 4 * |s|
  }

  predicate CommonUsername(s: string) {
    LettersThenFewDigits(s) || WordWord(s) || JustLetters(s)
  }

  /** `isLikelyRandomId`. */
  function IsLikelyRandomId(s: string): (r: DetectionResult)
    ensures HasSpecialCharacter(s) ==> r == DetectionResult(false, SpecialCharacters)
    ensures !HasSpecialCharacter(s) && |s| > 0 && AllDigits(s) ==> r == DetectionResult(true, AllNumbers)
    ensures r.isLikelyRandomId <==>
              !HasSpecialCharacter(s) &&
              ((|s| > 0 && AllDigits(s)) || SpotifyIdShape(s) ||
               (MatchesFrom(s, 0) <= 2 && (HighRatio(s) || (!CommonUsername(s) && |s| > 20 && MixedCase(s)))))
  {
    if HasSpecialCharacter(s) then DetectionResult(false, SpecialCharacters)
    else if |s| > 0 && AllDigits(s) then DetectionResult(true, AllNumbers)
    else if SpotifyIdShape(s) then DetectionResult(true, SpotifyIdPattern)
    else if MatchesFrom(s, 0) > 2 then DetectionResult(false, RepeatingPatterns)
    else if HighRatio(s) then DetectionResult(true, HighNumberRatio)
    else if LettersThenFewDigits(s) || WordWord(s) || JustLetters(s) then DetectionResult(false, CommonUsernamePattern)
    else if |s| > 20 && MixedCase(s) then DetectionResult(true, LongMixedCase)
    else DetectionResult(false, DefaultCase)
  }

  /** A string whose two halves are letters is letters. */
  lemma AllLettersJoin(s: string, k: nat)
    requires k <= |s| && AllLetters(s[..k]) && AllLetters(s[k..])
    ensures AllLetters(s)
  {
    forall i | 0 <= i < |s|
      ensures IsLetter(s[i])
    {
      if i < k {
        assert s[..k][i] == s[i];
      } else {
        assert s[k..][i - k] == s[i];
      }
    }
  }

  /** Once separators are rejected the word-word pattern only ever matches
      strings of letters, which the letters-only pattern matches too. */
  lemma WordWordIsJustLetters(s: string)
    requires !HasSpecialCharacter(s) && WordWord(s)
    ensures JustLetters(s)
  {
    var k :| 2 <= k && k + 2 <= |s| && AllLetters(s[..k]) &&
      (AllLetters(s[k..]) || (IsSeparator(s[k]) && k + 3 <= |s| && AllLetters(s[k + 1..])));
    NoSeparatorAt(s, k);
    AllLettersJoin(s, k);
  }

  /** Without special characters the optional separator is never there. */
  lemma NoSeparatorAt(s: string, k: nat)
    requires !HasSpecialCharacter(s) && k < |s|
    ensures !IsSeparator(s[k])
  {
    assert IsAlphanumeric(s[k]);
  }

  /** Every 28-character id of lowercase letters and digits, the shape of a
      streaming-service user id, is classified as random. */
  lemma SpotifyIdsAreRandom(s: string)
    requires SpotifyIdShape(s)
    ensures IsLikelyRandomId(s) == (if AllDigits(s) then DetectionResult(true, AllNumbers)
                                    else DetectionResult(true, SpotifyIdPattern))
  {
    assert !HasSpecialCharacter(s);
  }

  /** A name of letters only is shown, unless it has the 28-character id
      shape or more than two doubled letters. */
  lemma LetterNamesAreShown(s: string)
    requires JustLetters(s) && !SpotifyIdShape(s) && MatchesFrom(s, 0) <= 2
    ensures IsLikelyRandomId(s) == DetectionResult(false, CommonUsernamePattern)
  {
    assert !HasSpecialCharacter(s);
    assert !AllDigits(s) by {
      assert IsLetter(s[0]);
    }
    DigitsOfLetters(s);
  }

  lemma {:induction false} DigitsOfLetters(s: string)
    requires AllLetters(s)
    ensures CountDigits(s) == 0
  {
    if |s| > 0 {
      DigitsOfLetters(s[..|s| - 1]);
    }
  }

  /** `displayId`: the email when the provider id looks random. */
  function DisplayId(providerId: string, email: string): (d: string)
    ensures d == email <== IsLikelyRandomId(providerId).isLikelyRandomId
    ensures d == providerId <== !IsLikelyRandomId(providerId).isLikelyRandomId
  {
    if IsLikelyRandomId(providerId).isLikelyRandomId then email else providerId
  }
}
