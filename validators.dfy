/**
 * The two input validators of the sign-up page: `isValidEmail` tests
 * /^[^\s@]+@[^\s@]+\.[^\s@]+$/ and `isValidPassword` tests
 * /^(?=.*[A-Za-z]).{6,}$/.  Each regular expression is given here twice: as
 * the language it denotes (a ghost predicate that reads the pattern piece by
 * piece) and as a direct, executable test on the characters of the input.
 * The lemmas prove that the two agree on every string.
 */
module Validators {
  import opened JsText

  /* ---------------------------------------------------------------------- */
  /* E-mail address                                                          */
  /* ---------------------------------------------------------------------- */

  /** The class `[^\s@]`. */
  predicate IsAddressChar(c: char) {
    !IsWhitespace(c) && c != '@'
  }

  ghost predicate AllAddressChars(s: string) {
    forall i :: 0 <= i < |s| ==> IsAddressChar(s[i])
  }

  /** The string an e-mail match is made of: a run, `@`, a run, `.`, a run. */
  function Address(user: string, host: string, suffix: string): string {
    user + "@" + host + "." + suffix
  }

  /** The language of /^[^\s@]+@[^\s@]+\.[^\s@]+$/: three non-empty runs of
      `[^\s@]` joined by a literal `@` and a literal `.`. */
  ghost predicate MatchesEmailPattern(s: string) {
    exists user, host, suffix ::
      && s == Address(user, host, suffix)
      && user != [] && host != [] && suffix != []
      && AllAddressChars(user) && AllAddressChars(host) && AllAddressChars(suffix)
  }

  /** Whether the part after the `@` holds a `.` that is neither its first nor
      its last character. */
  predicate HasInnerDot(domain: string) {
    exists j | 0 < j < |domain| - 1 :: domain[j] == '.'
  }

  /** The single `@` of s sits at index k, and the part after it has an
      inner `.`. */
  predicate SplitsAt(s: string, k: nat)
    requires k < |s|
  {
    && s[k] == '@'
    && (forall j | 0 <= j < |s| && s[j] == '@' :: j == k)
    && HasInnerDot(s[k + 1..])
  }

  /** `isValidEmail` (page.tsx line 31): s has no whitespace, exactly one `@`,
      which is not its first character, and a `.` strictly inside the part
      after the `@`. */
  predicate IsValidEmail(s: string) {
    && (forall i | 0 <= i < |s| :: !IsWhitespace(s[i]))
    && exists k | 0 < k < |s| :: SplitsAt(s, k)
  }

  /** The test agrees with the regular expression on every string. */
  lemma IsValidEmailIffPattern(s: string)
    ensures IsValidEmail(s) <==> MatchesEmailPattern(s)
  {
    if IsValidEmail(s) {
      var k :| 0 < k < |s| && SplitsAt(s, k);
      var j :| 0 < j < |s[k + 1..]| - 1 && s[k + 1..][j] == '.';
      ValidEmailMatches(s, k, j);
    }
    if MatchesEmailPattern(s) {
      var user, host, suffix :|
        && s == Address(user, host, suffix)
        && user != [] && host != [] && suffix != []
        && AllAddressChars(user) && AllAddressChars(host) && AllAddressChars(suffix);
      PatternIsValidEmail(user, host, suffix);
    }
  }

  /** Every character of s[lo..hi] is in `[^\s@]`. */
  lemma AddressRun(s: string, lo: nat, hi: nat)
    requires lo <= hi <= |s|
    requires forall i | lo <= i < hi :: IsAddressChar(s[i])
    ensures AllAddressChars(s[lo..hi])
  {
  }

  lemma ValidEmailMatches(s: string, k: nat, j: nat)
    requires 0 < k < |s| && SplitsAt(s, k)
    requires forall i | 0 <= i < |s| :: !IsWhitespace(s[i])
    requires 0 < j < |s| - k - 2 && s[k + 1 + j] == '.'
    ensures MatchesEmailPattern(s)
  {
    var dot := k + 1 + j;
    var user, host, suffix := s[..k], s[k + 1..dot], s[dot + 1..];
    assert s == user + [s[k]] + host + [s[dot]] + suffix;
    assert s == Address(user, host, suffix);
    AddressRun(s, 0, k);
    AddressRun(s, k + 1, dot);
    AddressRun(s, dot + 1, |s|);
    assert s[..k] == s[0..k];
    assert s[dot + 1..] == s[dot + 1..|s|];
  }

  lemma PatternIsValidEmail(user: string, host: string, suffix: string)
    requires user != [] && host != [] && suffix != []
    requires AllAddressChars(user) && AllAddressChars(host) && AllAddressChars(suffix)
    ensures IsValidEmail(Address(user, host, suffix))
  {
    var s := Address(user, host, suffix);
    var k, dot := |user|, |user| + 1 + |host|;
    assert |s| == dot + 1 + |suffix|;
    forall i | 0 <= i < |s| ensures !IsWhitespace(s[i]) && (s[i] == '@' ==> i == k) {
      if i < k {
        assert s[i] == user[i];
      } else if k < i < dot {
        assert s[i] == host[i - k - 1];
      } else if i > dot {
        assert s[i] == suffix[i - dot - 1];
      } else if i == dot {
        assert s[i] == '.';
      }
    }
    assert s[k] == '@';
    assert s[k + 1..][|host|] == '.';
    assert SplitsAt(s, k);
  }

  /* ---------------------------------------------------------------------- */
  /* Password                                                                */
  /* ---------------------------------------------------------------------- */

  /** The class `.` (no `s` flag): anything but a line terminator. */
  predicate IsDotChar(c: char) {
    !IsLineTerminator(c)
  }

  ghost predicate AllDotChars(s: string) {
    forall i :: 0 <= i < |s| ==> IsDotChar(s[i])
  }

  /** A string cut at one character: what `.*[A-Za-z]` splits its input into. */
  function Cut(before: string, c: char, after: string): string {
    before + [c] + after
  }

  /** The language of /^(?=.*[A-Za-z]).{6,}$/.  The lookahead asks for a
      prefix of `.` characters ending in an ASCII letter; `.{6,}$` asks that
      the whole string is `.` characters, at least six code units of them. */
  ghost predicate MatchesPasswordPattern(p: string) {
    && (exists before, letter, after ::
          p == Cut(before, letter, after) && AllDotChars(before) && IsAsciiLetter(letter))
    && AllDotChars(p)
    && Utf16Length(p) >= 6
  }

  /** `isValidPassword` (page.tsx line 34): at least six code units, no line
      terminator, and at least one ASCII letter. */
  predicate IsValidPassword(p: string) {
    && Utf16Length(p) >= 6
    && (forall i | 0 <= i < |p| :: !IsLineTerminator(p[i]))
    && (exists i | 0 <= i < |p| :: IsAsciiLetter(p[i]))
  }

  /** The test agrees with the regular expression on every string. */
  lemma IsValidPasswordIffPattern(p: string)
    ensures IsValidPassword(p) <==> MatchesPasswordPattern(p)
  {
    if IsValidPassword(p) {
      var i :| 0 <= i < |p| && IsAsciiLetter(p[i]);
      assert p == Cut(p[..i], p[i], p[i + 1..]);
      assert AllDotChars(p[..i]) by {
        forall j | 0 <= j < i ensures IsDotChar(p[..i][j]) {
          assert p[..i][j] == p[j];
        }
      }
    }
    if MatchesPasswordPattern(p) {
      var before, letter, after :|
        p == Cut(before, letter, after) && AllDotChars(before) && IsAsciiLetter(letter);
      assert p[|before|] == letter;
      forall i | 0 <= i < |p| ensures !IsLineTerminator(p[i]) {
        assert IsDotChar(p[i]);
      }
    }
  }
}
