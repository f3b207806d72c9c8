// String helpers shared by the two page tests: ASCII lower-casing, suffix
// tests, and the two page names both dialogs are about.

module Paths {

  const QuizPage: string := "quiz.html"
  const HeadsetPage: string := "headset.html"

  /** Lower-case one character. Only ASCII letters change: no other
      character lower-cases to a letter of `quiz.html` or `headset.html`
      followed by nothing else, so the page tests below are unaffected by
      the rest of Unicode case mapping. */
  function LowerChar(c: char): char
  {
    if 'A' <= c <= 'Z' then (c as int + 32) as char else c
  }

  function Lower(s: string): (r: string)
    ensures |r| == |s|
    ensures forall i :: 0 <= i < |s| ==> r[i] == LowerChar(s[i])
  {
    if s == [] then [] else [LowerChar(s[0])] + Lower(s[1..])
  }

  /** `s.endsWith(suffix)`: `s` is some string followed by `suffix`. */
  predicate EndsWith(s: string, suffix: string): (b: bool)
    ensures b <==> exists p :: p + suffix == s
  {
    if |suffix| <= |s| && s[|s| - |suffix|..] == suffix then
      assert s[..|s| - |suffix|] + suffix == s;
      true
    else
      false
  }

  /** A string that ends in `prefix + x` ends in `x`. */
  lemma EndsWithLonger(s: string, prefix: string, x: string)
    ensures EndsWith(s, prefix + x) ==> EndsWith(s, x)
  {
    if EndsWith(s, prefix + x) {
      var tail := s[|s| - |prefix + x|..];
      assert tail == prefix + x;
      assert s[|s| - |x|..] == tail[|prefix|..];
    }
  }

  /** Case-insensitive suffix match in the manner of a regular expression
      with the `i` flag and without `u`: characters are compared after case
      folding, and only ASCII letters fold onto the ASCII pattern. */
  predicate EndsWithIgnoringCase(s: string, suffix: string): (b: bool)
    ensures EndsWith(s, suffix) ==> b
    ensures b ==> |suffix| <= |s|
  {
    |suffix| <= |s| &&
    forall k :: 0 <= k < |suffix| ==>
      LowerChar(s[|s| - |suffix| + k]) == LowerChar(suffix[k])
  }

  predicate IsLowerCase(s: string)
  {
    forall k :: 0 <= k < |s| ==> LowerChar(s[k]) == s[k]
  }

  /** Matching a lower-case pattern ignoring case is the same as lower-casing
      the subject and testing the suffix exactly. */
  lemma IgnoringCaseIsLowerSuffix(s: string, suffix: string)
    requires IsLowerCase(suffix)
    ensures EndsWithIgnoringCase(s, suffix) <==> EndsWith(Lower(s), suffix)
  {
    if EndsWithIgnoringCase(s, suffix) {
      FoldedTailMatches(s, suffix);
    }
    if EndsWith(Lower(s), suffix) {
      MatchedTailFolds(s, suffix);
    }
  }

  lemma FoldedTailMatches(s: string, suffix: string)
    requires IsLowerCase(suffix) && EndsWithIgnoringCase(s, suffix)
    ensures EndsWith(Lower(s), suffix)
  {
    var ls := Lower(s);
    var tail := ls[|ls| - |suffix|..];
    assert |tail| == |suffix|;
    forall k | 0 <= k < |suffix|
      ensures tail[k] == suffix[k]
    {
      assert tail[k] == ls[|s| - |suffix| + k];
    }
    assert tail == suffix;
  }

  lemma MatchedTailFolds(s: string, suffix: string)
    requires IsLowerCase(suffix) && EndsWith(Lower(s), suffix)
    ensures EndsWithIgnoringCase(s, suffix)
  {
    var ls := Lower(s);
    var tail := ls[|ls| - |suffix|..];
    assert |suffix| <= |s| && tail == suffix;
    assert forall k :: 0 <= k < |suffix| ==> LowerChar(s[|s| - |suffix| + k]) == LowerChar(suffix[k]) by {
      forall k | 0 <= k < |suffix|
        ensures LowerChar(s[|s| - |suffix| + k]) == LowerChar(suffix[k])
      {
        var j := |s| - |suffix| + k;
        assert ls[j] == LowerChar(s[j]);
        assert tail[k] == ls[j];
        assert LowerChar(suffix[k]) == suffix[k];
      }
    }
  }
}
