/**
 * The client-side input checks shared by the event, login and signup screens:
 * the SQL-keyword denylist of the event form, the email shape
 * `^[^\s@]+@[^\s@]+\.[^\s@]+$`, the password policy and the name rules.
 * Each regular expression is given a reference meaning (a quantified statement
 * about the string) and the executable check is proved to agree with it.
 */
module Validators {
  import opened JsValues

  /** `Any(s, f)` and `All(s, f)`: a character-class search and a full match. */
  function Any(s: string, f: char -> bool): (r: bool)
    ensures r <==> exists i :: 0 <= i < |s| && f(s[i])
  {
    if s == [] then false
    else if f(s[0]) then true
    else
      var r := Any(s[1..], f);
      assert forall i :: 1 <= i < |s| ==> s[i] == s[1..][i - 1];
      r
  }

  function All(s: string, f: char -> bool): (r: bool)
    ensures r <==> forall i :: 0 <= i < |s| ==> f(s[i])
  {
    if s == [] then true
    else if !f(s[0]) then false
    else
      var r := All(s[1..], f);
      assert forall i :: 1 <= i < |s| ==> s[i] == s[1..][i - 1];
      r
  }

  // ---------------------------------------------------------------------
  // The denylist of the event form:
  //   /(;|--|DROP|SELECT|INSERT|DELETE|UPDATE|CREATE|ALTER|EXEC|UNION)/i

  const ForbiddenPatterns: seq<string> :=
    [";", "--", "DROP", "SELECT", "INSERT", "DELETE", "UPDATE", "CREATE", "ALTER", "EXEC", "UNION"]

  /**
   * Case folding of a non-unicode `/i` regular expression as it bears on these
   * patterns: only ASCII letters fold (a non-ASCII character never folds to an
   * ASCII one).
   */
  function Fold(c: char): (u: char)
    ensures 'a' <= c <= 'z' ==> u as int == c as int - 32
    ensures !('a' <= c <= 'z') ==> u == c
  {
    if 'a' <= c <= 'z' then (c as int - 32) as char else c
  }

  /** Pattern `w` (upper case) matches `s` at position `i`, ignoring case. */
  predicate MatchesAt(s: string, i: nat, w: string)
  {
    i + |w| <= |s| && forall k :: 0 <= k < |w| ==> Fold(s[i + k]) == w[k]
  }

  /** Some alternative of the denylist matches at position `i`. */
  predicate ForbiddenAt(s: string, i: nat)
  {
    exists j :: 0 <= j < |ForbiddenPatterns| && MatchesAt(s, i, ForbiddenPatterns[j])
  }

  /** The regular-expression search: the leftmost position where an alternative matches. */
  function FirstForbidden(s: string, from: nat): (r: Option<nat>)
    requires from <= |s|
    ensures r.None? <==> forall i :: from <= i < |s| ==> !ForbiddenAt(s, i)
    ensures r.Some? ==> from <= r.value < |s| && ForbiddenAt(s, r.value)
    ensures r.Some? ==> forall i :: from <= i < r.value ==> !ForbiddenAt(s, i)
    decreases |s| - from
  {
    if from == |s| then None
    else if ForbiddenAt(s, from) then Some(from)
    else FirstForbidden(s, from + 1)
  }

  /** `validateInput`: false exactly when some denylisted pattern occurs, ignoring case. */
  function ValidateInput(input: string): (ok: bool)
    ensures ok <==> forall i :: 0 <= i < |input| ==> !ForbiddenAt(input, i)
  {
    FirstForbidden(input, 0).None?
  }

  /** Any spelling of a denylisted pattern, in any letter case, anywhere in the input, is refused. */
  lemma {:induction false} ValidateInputRefusesEmbedded(before: string, m: string, after: string, j: nat)
    requires j < |ForbiddenPatterns|
    requires |m| == |ForbiddenPatterns[j]|
    requires forall k :: 0 <= k < |m| ==> Fold(m[k]) == ForbiddenPatterns[j][k]
    ensures !ValidateInput(before + m + after)
  {
    var s := before + m + after;
    assert forall k :: 0 <= k < |m| ==> s[|before| + k] == m[k];
    assert MatchesAt(s, |before|, ForbiddenPatterns[j]);
    assert ForbiddenAt(s, |before|);
  }

  lemma ValidateInputExamples()
    ensures !ValidateInput("Trip; DROP TABLE events")
    ensures !ValidateInput("Drop-off at the airport")
    ensures ValidateInput("")
  {
    var trip := "Trip; DROP TABLE events";
    assert MatchesAt(trip, 4, ForbiddenPatterns[0]);
    assert ForbiddenAt(trip, 4);
    var drop := "Drop-off at the airport";
    assert MatchesAt(drop, 0, ForbiddenPatterns[2]);
    assert ForbiddenAt(drop, 0);
  }

  // ---------------------------------------------------------------------
  // The email shape ^[^\s@]+@[^\s@]+\.[^\s@]+$

  /** The characters JavaScript's `\s` matches. */
  predicate IsSpace(c: char)
  {
    c == '\t' || c == '\n' || c == '\U{000B}' || c == '\U{000C}' || c == '\r' || c == ' '
    || c == '\U{00A0}' || c == '\U{1680}' || ('\U{2000}' <= c <= '\U{200A}')
    || c == '\U{2028}' || c == '\U{2029}' || c == '\U{202F}' || c == '\U{205F}'
    || c == '\U{3000}' || c == '\U{FEFF}'
  }

  /** `[^\s@]`. */
  predicate SegmentChar(c: char) { !IsSpace(c) && c != '@' }

  /** `[^\s@]+`. */
  predicate IsSegment(x: string) { |x| > 0 && forall k :: 0 <= k < |x| ==> SegmentChar(x[k]) }

  /** What the email regular expression means: three segments joined by `@` and `.`. */
  ghost predicate EmailRegexMatches(s: string)
  {
    exists local, host, tld :: IsSegment(local) && IsSegment(host) && IsSegment(tld)
                               && s == local + "@" + host + "." + tld
  }

  /** The index of the first `c` in `s`. */
  function IndexOf(s: string, c: char): (r: Option<nat>)
    ensures r.None? <==> c !in s
    ensures r.Some? ==> r.value < |s| && s[r.value] == c && c !in s[..r.value]
  {
    if s == [] then None
    else if s[0] == c then Some(0)
    else
      match IndexOf(s[1..], c)
      case None => None
      case Some(i) =>
        assert s[..i + 1] == [s[0]] + s[1..][..i];
        Some(i + 1)
  }

  /** A `.` with at least one character on each side of it. */
  predicate HasInnerDot(d: string)
  {
    exists q | 1 <= q < |d| - 1 :: d[q] == '.'
  }

  /** The email check as the screens run it: split at the first `@`, then inspect both sides. */
  function IsEmail(s: string): bool
  {
    match IndexOf(s, '@')
    case None => false
    case Some(p) =>
      IsSegment(s[..p]) && All(s[p + 1..], SegmentChar) && HasInnerDot(s[p + 1..])
  }

  lemma IsEmailSound(s: string)
    requires IsEmail(s)
    ensures EmailRegexMatches(s)
  {
    var p := IndexOf(s, '@').value;
    var d := s[p + 1..];
    var q :| 1 <= q < |d| - 1 && d[q] == '.';
    var local, host, tld := s[..p], d[..q], d[q + 1..];
    assert All(d, SegmentChar);
    assert IsSegment(host) by {
      forall k | 0 <= k < |host| ensures SegmentChar(host[k]) { assert host[k] == d[k]; }
    }
    assert IsSegment(tld) by {
      forall k | 0 <= k < |tld| ensures SegmentChar(tld[k]) { assert tld[k] == d[q + 1 + k]; }
    }
    assert d == host + "." + tld;
    assert s == local + "@" + host + "." + tld;
  }

  lemma IsEmailComplete(local: string, host: string, tld: string)
    requires IsSegment(local) && IsSegment(host) && IsSegment(tld)
    ensures IsEmail(local + "@" + host + "." + tld)
  {
    var s := local + "@" + host + "." + tld;
    var p := |local|;
    assert s[p] == '@' && s[..p] == local;
    assert '@' !in local by {
      forall k | 0 <= k < |local| ensures local[k] != '@' { assert SegmentChar(local[k]); }
    }
    assert IndexOf(s, '@') == Some(p);
    var d := s[p + 1..];
    assert d == host + "." + tld;
    assert d[|host|] == '.';
    forall k | 0 <= k < |d| ensures SegmentChar(d[k]) {
      if k < |host| { assert d[k] == host[k]; }
      else if k > |host| { assert d[k] == tld[k - |host| - 1]; }
    }
  }

  /** The check accepts exactly the strings the regular expression matches. */
  lemma IsEmailMatchesRegex(s: string)
    ensures IsEmail(s) <==> EmailRegexMatches(s)
  {
    if IsEmail(s) {
      IsEmailSound(s);
    }
    if EmailRegexMatches(s) {
      var local, host, tld :| IsSegment(local) && IsSegment(host) && IsSegment(tld)
                              && s == local + "@" + host + "." + tld;
      IsEmailComplete(local, host, tld);
    }
  }

  /** A non-empty run of lower-case ASCII letters is a segment. */
  lemma LowercaseSegment(x: string)
    requires |x| > 0 && forall k :: 0 <= k < |x| ==> 'a' <= x[k] <= 'z'
    ensures IsSegment(x)
  {
  }

  lemma IsEmailAcceptsPlainAddress()
    ensures IsEmail("ann@example.com")
  {
    assert "ann@example.com" == "ann" + "@" + "example" + "." + "com";
    LowercaseSegment("ann");
    LowercaseSegment("example");
    LowercaseSegment("com");
    IsEmailComplete("ann", "example", "com");
  }

  /** An address without a dot, such as `ann@example`, is refused. */
  lemma IsEmailNeedsDot(s: string)
    requires '.' !in s
    ensures !IsEmail(s)
  {
  }

  // ---------------------------------------------------------------------
  // Passwords and names

  predicate IsDigit(c: char) { '0' <= c <= '9' }

  /** The characters of `[!@#$%^&*]`. */
  predicate IsPasswordSymbol(c: char) { c in "!@#$%^&*" }

  /**
   * The current policy: a `length` of at least 8 UTF-16 code units, a digit,
   * and one of `!@#$%^&*`.
   */
  function PasswordMeetsPolicy(p: string): (ok: bool)
    ensures ok <==> Utf16Length(p) >= 8 && (exists i :: 0 <= i < |p| && IsDigit(p[i]))
                    && (exists i :: 0 <= i < |p| && IsPasswordSymbol(p[i]))
  {
    !(Utf16Length(p) < 8 || !Any(p, IsDigit) || !Any(p, IsPasswordSymbol))
  }

  /** The older screens only ask for a `length` of six. */
  function LegacyPasswordLongEnough(p: string): (ok: bool)
    ensures ok <==> Utf16Length(p) >= 6
  {
    !(Utf16Length(p) < 6)
  }

  /** Every password the current policy accepts, the older rule accepts too, but not conversely. */
  lemma PolicyIsStricterThanLegacy(p: string)
    ensures PasswordMeetsPolicy(p) ==> LegacyPasswordLongEnough(p)
    ensures LegacyPasswordLongEnough("abcdef") && !PasswordMeetsPolicy("abcdef")
  {
    Utf16LengthOfBmp("abcdef");
  }

  /**
   * Characters beyond U+FFFF count twice: three emoji make a legacy-length
   * password, and three emoji with a digit and a symbol meet the policy.
   */
  lemma AstralCharactersCountTwice()
    ensures LegacyPasswordLongEnough("\U{1F600}\U{1F600}\U{1F600}")
    ensures PasswordMeetsPolicy("\U{1F600}\U{1F600}\U{1F600}1!")
  {
    var p := "\U{1F600}\U{1F600}\U{1F600}1!";
    assert p[1..] == "\U{1F600}\U{1F600}1!";
    assert p[2..] == "\U{1F600}1!";
    assert p[3..] == "1!";
    assert p[4..] == "!";
    assert IsDigit(p[3]) && IsPasswordSymbol(p[4]);
  }

  predicate IsAsciiLetter(c: char) { 'a' <= c <= 'z' || 'A' <= c <= 'Z' }

  predicate IsFirstNameChar(c: char) { IsAsciiLetter(c) || c == '-' }

  /** `^[a-zA-Z-]+$`. */
  function FirstNameValid(s: string): (ok: bool)
    ensures ok <==> |s| > 0 && forall i :: 0 <= i < |s| ==> IsAsciiLetter(s[i]) || s[i] == '-'
  {
    |s| > 0 && All(s, IsFirstNameChar)
  }

  /** `^[a-zA-Z]+$`. */
  function LastNameValid(s: string): (ok: bool)
    ensures ok <==> |s| > 0 && forall i :: 0 <= i < |s| ==> IsAsciiLetter(s[i])
  {
    |s| > 0 && All(s, IsAsciiLetter)
  }

  /** A hyphen is allowed in a first name and refused in a last name. */
  lemma {:induction false} HyphenOnlyInFirstName(a: string, b: string)
    requires LastNameValid(a) && LastNameValid(b)
    ensures FirstNameValid(a + "-" + b)
    ensures !LastNameValid(a + "-" + b)
  {
    var s := a + "-" + b;
    assert s[|a|] == '-';
    forall i | 0 <= i < |s| ensures IsAsciiLetter(s[i]) || s[i] == '-' {
      if i < |a| { assert s[i] == a[i]; }
      else if i > |a| { assert s[i] == b[i - |a| - 1]; }
    }
  }
}
