/**
 * The e-mail check of `POST /api/users`: the regular expression
 * `/^[^\s@]+@[^\s@]+\.[^\s@]+$/` as a language (a split of the string into
 * local part, host and last label), and a direct decision procedure proved
 * to accept exactly that language.
 */
module Email {
  import opened JsText

  /** The character class `[^\s@]`. */
  predicate IsPartChar(c: char)
  {
    !IsJsSpace(c) && c != '@'
  }

  predicate AllPartChars(s: string)
  {
    forall k :: 0 <= k < |s| ==> IsPartChar(s[k])
  }

  /**
   * The strings the pattern matches: an `@` at `i` and a `.` at `j` cut the
   * string into three non-empty runs of `[^\s@]`.
   */
  ghost predicate MatchesPattern(s: string)
  {
    exists i, j :: IsSplit(s, i, j)
  }

  ghost predicate IsSplit(s: string, i: int, j: int)
  {
    0 < i && i + 1 < j < |s| - 1 && s[i] == '@' && s[j] == '.'
    && AllPartChars(s[..i]) && AllPartChars(s[i + 1..j]) && AllPartChars(s[j + 1..])
  }

  /** The position of the first `@`, or `|s|` when there is none. */
  function IndexOfAt(s: string): (i: nat)
    ensures i <= |s|
    ensures i < |s| ==> s[i] == '@'
    ensures forall k :: 0 <= k < i ==> s[k] != '@'
  {
    if s == [] then 0
    else if s[0] == '@' then 0
    else 1 + IndexOfAt(s[1..])
  }

  /**
   * The decision procedure: a non-empty local part up to the first `@`, and
   * a host without `@` or white space holding a `.` that is neither its
   * first nor its last character.
   */
  predicate Scan(s: string)
  {
    var i := IndexOfAt(s);
    0 < i < |s| && AllPartChars(s[..i]) && AllPartChars(s[i + 1..])
    && |s[i + 1..]| >= 3 && '.' in s[i + 1..][1..|s[i + 1..]| - 1]
  }

  /** `emailRegex.test(s)`: true exactly on the strings the pattern matches. */
  function IsValidEmail(s: string): (ok: bool)
    ensures ok <==> MatchesPattern(s)
  {
    ScanDecidesPattern(s);
    Scan(s)
  }

  lemma ScanDecidesPattern(s: string)
    ensures Scan(s) <==> MatchesPattern(s)
  {
    if Scan(s) {
      AcceptedMatches(s);
    }
    if MatchesPattern(s) {
      MatchIsScanned(s);
    }
  }

  lemma AcceptedMatches(s: string)
    requires Scan(s)
    ensures MatchesPattern(s)
  {
    var i := IndexOfAt(s);
    var host := s[i + 1..];
    var k :| 0 <= k < |host[1..|host| - 1]| && host[1..|host| - 1][k] == '.';
    var j := i + 2 + k;
    assert s[i + 1..j] == host[..k + 1];
    assert s[j + 1..] == host[k + 2..];
    assert IsSplit(s, i, j);
  }

  lemma MatchIsScanned(s: string)
    requires MatchesPattern(s)
    ensures Scan(s)
  {
    var i, j :| IsSplit(s, i, j);
    SplitAtIsFirstAt(s, i, j);
    var host := s[i + 1..];
    SplitHost(s, i, j);
    assert host[1..|host| - 1][j - i - 2] == '.';
  }

  /** The `@` of a split is the first one: the local part holds none. */
  lemma SplitAtIsFirstAt(s: string, i: int, j: int)
    requires IsSplit(s, i, j)
    ensures IndexOfAt(s) == i
  {
    assert forall k :: 0 <= k < i ==> s[k] == s[..i][k];
  }

  /** The host of a split is its two runs around the `.`, so it has no space and no `@`. */
  lemma SplitHost(s: string, i: int, j: int)
    requires IsSplit(s, i, j)
    ensures var host := s[i + 1..];
            host == s[i + 1..j] + ['.'] + s[j + 1..] && AllPartChars(host)
  {
    var host := s[i + 1..];
    assert host == s[i + 1..j] + [s[j]] + s[j + 1..];
    assert IsPartChar('.');
  }

  /** Lower-case ASCII letters are neither white space nor `@`. */
  lemma LettersArePartChars(s: string)
    requires forall k :: 0 <= k < |s| ==> 'a' <= s[k] <= 'z'
    ensures AllPartChars(s)
  {
  }

  /** Any non-empty local part without space or `@`, at `example.com`, passes the check. */
  lemma ExampleDomainValid(local: string)
    requires local != [] && AllPartChars(local)
    ensures IsValidEmail(local + "@example.com")
  {
    var s := local + "@example.com";
    var i := |local|;
    assert s[..i] == local;
    assert s[i..] == "@example.com";
    assert s[i + 1..i + 8] == s[i..][1..8];
    assert s[i + 9..] == s[i..][9..];
    assert IsSplit(s, i, i + 8);
  }

  /** A host without an inner dot fails the check. */
  lemma HostNeedsInnerDot()
    ensures !IsValidEmail("a@b")
    ensures !IsValidEmail("a@.com")
  {
    assert IndexOfAt("a@.com") == 1;
    assert "a@.com"[2..][1..3] == "co";
  }

  /** A second `@` fails the check. */
  lemma SecondAtRejected()
    ensures !IsValidEmail("a@b@c.d")
  {
    assert IndexOfAt("a@b@c.d") == 1;
    assert "a@b@c.d"[2..][1] == '@';
  }

  /** White space fails the check. */
  lemma SpaceRejected()
    ensures !IsValidEmail("a b@c.d")
  {
    assert IndexOfAt("a b@c.d") == 3;
    assert "a b@c.d"[..3][1] == ' ';
  }
}
