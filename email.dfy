/**
 * The forms' email test `/\S+@\S+\.\S+/.test(value)`: an unanchored regular
 * expression. `MatchesPattern` states what the expression matches; the
 * compiled `LooksLikeEmail` scans for it and is proved to agree.
 */
module Email {
  import opened Text

  /** The part of a match after the '@' at `at`: non-whitespace characters up to
      a '.' at `dot` with at least one character between them, and at least one
      non-whitespace character after the '.'. */
  ghost predicate TailAt(s: string, at: int, dot: int) {
    0 <= at && at + 2 <= dot && dot + 1 < |s| && s[dot] == '.' &&
    forall t :: at < t <= dot + 1 ==> !IsSpace(s[t])
  }

  /** A match of `\S+@\S+\.\S+` whose '@' is at `at` and whose '.' is at `dot`. */
  ghost predicate MatchAt(s: string, at: int, dot: int) {
    1 <= at < |s| && s[at] == '@' && !IsSpace(s[at - 1]) && TailAt(s, at, dot)
  }

  /** Some substring of `s` matches `\S+@\S+\.\S+`. */
  ghost predicate MatchesPattern(s: string) {
    exists at, dot :: MatchAt(s, at, dot)
  }

  /** Scans the non-whitespace run after the '@' at `at`, from position `i`, for
      a '.' that completes a match. */
  function DotFrom(s: string, at: nat, i: nat): (r: bool)
    requires at < i <= |s|
    requires forall t :: at < t < i ==> !IsSpace(s[t])
    ensures r <==> exists dot :: i <= dot && TailAt(s, at, dot)
    decreases |s| - i
  {
    if i == |s| || IsSpace(s[i]) then false
    else if at + 2 <= i && s[i] == '.' && i + 1 < |s| && !IsSpace(s[i + 1]) then
      assert TailAt(s, at, i);
      true
    else DotFrom(s, at, i + 1)
  }

  /** Scans `s` from position `j` for an '@' that starts a match. */
  function AtFrom(s: string, j: nat): (r: bool)
    requires j <= |s|
    ensures r <==> exists at, dot :: j <= at && MatchAt(s, at, dot)
    decreases |s| - j
  {
    if j == |s| then false
    else if 1 <= j && s[j] == '@' && !IsSpace(s[j - 1]) && DotFrom(s, j, j + 1) then
      MatchFromTail(s, j);
      true
    else AtFrom(s, j + 1)
  }

  lemma MatchFromTail(s: string, at: nat)
    requires 1 <= at < |s| && s[at] == '@' && !IsSpace(s[at - 1])
    requires exists dot :: TailAt(s, at, dot)
    ensures exists dot :: MatchAt(s, at, dot)
  {
    var dot :| TailAt(s, at, dot);
    assert MatchAt(s, at, dot);
  }

  /** The email format test of the user, organization-signup and registration forms. */
  function LooksLikeEmail(s: string): (r: bool)
    ensures r <==> MatchesPattern(s)
  {
    AtFrom(s, 0)
  }

  /** "foo" is rejected and "foo@bar.com" accepted. */
  lemma Examples()
    ensures !LooksLikeEmail("foo")
    ensures LooksLikeEmail("foo@bar.com")
  {
    assert MatchAt("foo@bar.com", 3, 7);
  }

  /** The expression is not anchored: text around an address does not matter. */
  lemma Unanchored(s: string, before: string, after: string)
    requires LooksLikeEmail(s)
    ensures LooksLikeEmail(before + s + after)
  {
    var at, dot :| MatchAt(s, at, dot);
    var w := before + s + after;
    var k := |before|;
    forall t | k + at < t <= k + dot + 1
      ensures !IsSpace(w[t])
    {
      assert w[t] == s[t - k];
    }
    assert w[k + at] == s[at] && w[k + at - 1] == s[at - 1] && w[k + dot] == s[dot];
    assert MatchAt(w, k + at, dot + k);
  }

  /** A match needs an '@' with a character before it and a '.' two places
      later with one after it, so an accepted address has at least five characters. */
  lemma AcceptedIsAtLeastFiveLong(s: string)
    requires LooksLikeEmail(s)
    ensures |s| >= 5
  {
    var at, dot :| MatchAt(s, at, dot);
  }
}
