/**
 * `validateEmail` of the email step: a required field that must match
 * `^[A-Z0-9._%+-]+@[A-Z0-9.-]+\.[A-Z]{2,4}$` case-insensitively.
 *
 * The pattern is stated declaratively (`MatchesPattern`: some split of the
 * text into local part, '@', domain, '.', top-level part exists) and decided
 * without backtracking by `IsValidEmailAddress`, which locates the first '@'
 * and the last '.' after it.
 */
module EmailValidation {
  import opened Wrappers

  const REQUIRED := "Required"
  const INVALID_EMAIL := "Invalid email address"

  /** `[A-Z]` under the case-insensitive flag. */
  predicate IsLetter(c: char) {
    'A' <= c <= 'Z' || 'a' <= c <= 'z'
  }

  predicate IsDigit(c: char) {
    '0' <= c <= '9'
  }

  /** `[A-Z0-9._%+-]` under the case-insensitive flag. */
  predicate IsLocalChar(c: char) {
    IsLetter(c) || IsDigit(c) || c == '.' || c == '_' || c == '%' || c == '+' || c == '-'
  }

  /** `[A-Z0-9.-]` under the case-insensitive flag. */
  predicate IsDomainChar(c: char) {
    IsLetter(c) || IsDigit(c) || c == '.' || c == '-'
  }

  predicate LocalRun(s: string, lo: nat, hi: nat)
    requires lo <= hi <= |s|
  {
    forall i | lo <= i < hi :: IsLocalChar(s[i])
  }

  predicate DomainRun(s: string, lo: nat, hi: nat)
    requires lo <= hi <= |s|
  {
    forall i | lo <= i < hi :: IsDomainChar(s[i])
  }

  predicate LetterRun(s: string, lo: nat, hi: nat)
    requires lo <= hi <= |s|
  {
    forall i | lo <= i < hi :: IsLetter(s[i])
  }

  /**
   * `s` is local part + '@' + domain + '.' + top-level part, with the '@' at
   * index `at` and the separating '.' at index `dot`.
   */
  predicate ShapeAt(s: string, at: nat, dot: nat) {
    && 0 < at && at + 1 < dot && dot + 3 <= |s| <= dot + 5
    && s[at] == '@' && s[dot] == '.'
    && LocalRun(s, 0, at)
    && DomainRun(s, at + 1, dot)
    && LetterRun(s, dot + 1, |s|)
  }

  /** The whole text matches the pattern. */
  ghost predicate MatchesPattern(s: string) {
    exists at: nat, dot: nat :: ShapeAt(s, at, dot)
  }

  /** The index of the first `c` in `s`. */
  function IndexOf(s: string, c: char): (r: Option<nat>)
    ensures r.Some? ==> r.value < |s| && s[r.value] == c && forall i | 0 <= i < r.value :: s[i] != c
    ensures r.None? ==> forall i | 0 <= i < |s| :: s[i] != c
  {
    if s == [] then None
    else if s[0] == c then Some(0)
    else
      var r := IndexOf(s[1..], c);
      if r.Some? then Some(r.value + 1) else None
  }

  /** The index of the last `c` in `s`. */
  function LastIndexOf(s: string, c: char): (r: Option<nat>)
    ensures r.Some? ==> r.value < |s| && s[r.value] == c && forall i | r.value < i < |s| :: s[i] != c
    ensures r.None? ==> forall i | 0 <= i < |s| :: s[i] != c
  {
    if s == [] then None
    else if s[|s| - 1] == c then Some(|s| - 1)
    else LastIndexOf(s[..|s| - 1], c)
  }

  /** The regular-expression test, decided by the first '@' and the last '.' after it. */
  function IsValidEmailAddress(s: string): (r: bool)
    ensures r <==> MatchesPattern(s)
  {
    PatternDecided(s);
    Decide(s)
  }

  function Decide(s: string): bool {
    match IndexOf(s, '@')
    case None => false
    case Some(at) =>
      match LastIndexOf(s[at + 1..], '.')
      case None => false
      case Some(d) => ShapeAt(s, at, at + 1 + d)
  }

  /** Locating the first '@' and the last '.' after it decides the pattern. */
  lemma PatternDecided(s: string)
    ensures Decide(s) <==> MatchesPattern(s)
  {
  }

  /** The error `validateEmail` reports for the email field, if any. */
  function ValidateEmail(email: Option<string>): (r: Option<string>)
    ensures r == Some(REQUIRED) <==> email.None? || email.value == ""
    ensures r == Some(INVALID_EMAIL) <==> email.Some? && email.value != "" && !MatchesPattern(email.value)
    ensures r.None? <==> email.Some? && MatchesPattern(email.value)
  {
    if email.None? || email.value == "" then Some(REQUIRED)
    else if !IsValidEmailAddress(email.value) then Some(INVALID_EMAIL)
    else None
  }

  /**
   * An accepted address has exactly one '@', preceded by a non-empty run of
   * `[A-Za-z0-9._%+-]`.
   */
  lemma AcceptedLocalPart(s: string, at: nat)
    requires IsValidEmailAddress(s)
    requires at < |s| && s[at] == '@'
    ensures 0 < at && LocalRun(s, 0, at)
    ensures forall i | 0 <= i < |s| && i != at :: s[i] != '@'
  {
  }

  /**
   * After the '@' of an accepted address come a non-empty run of
   * `[A-Za-z0-9.-]`, a '.', and two to four letters that end the text.
   */
  lemma AcceptedDomainPart(s: string, at: nat)
    requires IsValidEmailAddress(s)
    requires at < |s| && s[at] == '@'
    ensures exists dot: nat :: at + 1 < dot && dot + 3 <= |s| <= dot + 5 && s[dot] == '.'
                            && DomainRun(s, at + 1, dot) && LetterRun(s, dot + 1, |s|)
  {
  }

  /** ASCII upper-casing of a character. */
  function UpperChar(c: char): char {
    if 'a' <= c <= 'z' then (c as int - 32) as char else c
  }

  /** ASCII lower-casing of a character. */
  function LowerChar(c: char): char {
    if 'A' <= c <= 'Z' then (c as int + 32) as char else c
  }

  /** `s` with the case of every ASCII letter changed to upper or to lower. */
  function ChangeCase(s: string, upper: bool): (r: string)
    ensures |r| == |s|
    ensures forall i | 0 <= i < |s| :: r[i] == if upper then UpperChar(s[i]) else LowerChar(s[i])
  {
    seq(|s|, i requires 0 <= i < |s| => if upper then UpperChar(s[i]) else LowerChar(s[i]))
  }

  /** The pattern ignores case: changing the case of letters never changes the verdict. */
  lemma CaseInsensitive(s: string, upper: bool)
    ensures IsValidEmailAddress(ChangeCase(s, upper)) == IsValidEmailAddress(s)
  {
    var t := ChangeCase(s, upper);
    if MatchesPattern(s) {
      var at: nat, dot: nat :| ShapeAt(s, at, dot);
      ShapeAtCase(s, upper, at, dot);
    }
    if MatchesPattern(t) {
      var at: nat, dot: nat :| ShapeAt(t, at, dot);
      ShapeAtCase(s, upper, at, dot);
    }
  }

  lemma ShapeAtCase(s: string, upper: bool, at: nat, dot: nat)
    ensures ShapeAt(s, at, dot) <==> ShapeAt(ChangeCase(s, upper), at, dot)
  {
  }
}
