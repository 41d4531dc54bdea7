/**
 * Validation of the project name given to `create` (the test of
 * `/^[a-zA-Z0-9_-]+$/` in bin/cli.js) and the target directory built from it.
 */
module ProjectName {

  /** The character class `[a-zA-Z0-9_-]`. */
  predicate IsNameChar(c: char)
  {
    ('a' <= c <= 'z') || ('A' <= c <= 'Z') || ('0' <= c <= '9') || c == '_' || c == '-'
  }

  /** `[a-zA-Z0-9_-]*` anchored at the end: the repetition consumes the whole rest. */
  function MatchesClassStar(s: string): bool
  {
    s == [] || (IsNameChar(s[0]) && MatchesClassStar(s[1..]))
  }

  lemma {:induction false} ClassStarMeansAll(s: string)
    ensures MatchesClassStar(s) <==> forall i :: 0 <= i < |s| ==> IsNameChar(s[i])
  {
    if s != [] {
      ClassStarMeansAll(s[1..]);
      assert forall i :: 1 <= i < |s| ==> s[i] == s[1..][i - 1];
    }
  }

  /**
   * The anchored regular expression with `+`: at least one character, and all
   * of them in the class. A name passes iff it is non-empty and has no other
   * character.
   */
  function IsValidName(s: string): (ok: bool)
    ensures ok <==> |s| > 0 && forall i :: 0 <= i < |s| ==> IsNameChar(s[i])
  {
    ClassStarMeansAll(s);
    s != [] && IsNameChar(s[0]) && MatchesClassStar(s[1..])
  }

  /**
   * A valid name is one plain path component: no separator and not `.` or `..`,
   * so `path.join(cwd, name)` is `cwd` with `name` appended.
   */
  lemma ValidNameIsOneComponent(s: string)
    requires IsValidName(s)
    ensures '/' !in s && '\\' !in s && '.' !in s
    ensures s != "." && s != ".."
  {
  }
}
