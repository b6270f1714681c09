/**
 * Anchored literal matching. The server classifies strings with regular
 * expressions of the form `/^lit/`, where `lit` holds no metacharacters: the
 * match succeeds when the characters of `lit` are met one by one from the
 * first character of the subject on.
 */
module AnchoredMatch {

  /** `/^lit/` tried against `s`, character by character. */
  predicate MatchesAtStart(s: string, lit: string)
    decreases |lit|
  {
    lit == [] || (s != [] && s[0] == lit[0] && MatchesAtStart(s[1..], lit[1..]))
  }

  /** The character-by-character matcher decides exactly the prefix relation `lit <= s`. */
  lemma {:induction false} MatchesAtStartIff(s: string, lit: string)
    ensures MatchesAtStart(s, lit) <==> lit <= s
    decreases |lit|
  {
    if lit != [] && s != [] {
      MatchesAtStartIff(s[1..], lit[1..]);
      if lit <= s {
        assert s[0] == s[..|lit|][0] == lit[0];
        assert s[1..][..|lit| - 1] == s[..|lit|][1..];
      }
      if s[0] == lit[0] && lit[1..] <= s[1..] {
        assert s[..|lit|] == [s[0]] + s[1..][..|lit| - 1];
        assert lit == [lit[0]] + lit[1..];
      }
    }
  }
}
