/** Counting the occurrences of a keyword in SQL text. */
module SqlText {

  /** The number of positions at which `w` occurs in `s` (overlaps counted). */
  function Occurrences(s: string, w: string): nat
    requires |w| > 0
    decreases |s|
  {
    if |s| < |w| then 0
    else (if s[..|w|] == w then 1 else 0) + Occurrences(s[1..], w)
  }

  /** Gluing two texts adds their counts when the first ends in a character
      that `w` does not contain: no occurrence can straddle the seam. */
  lemma {:induction false} OccurrencesConcat(a: string, b: string, w: string)
    requires |w| > 0
    requires |a| > 0 ==> a[|a| - 1] !in w
    ensures Occurrences(a + b, w) == Occurrences(a, w) + Occurrences(b, w)
    decreases |a|
  {
    if |a| == 0 {
      assert a + b == b;
    } else {
      var s := a + b;
      if |s| >= |w| {
        assert s[1..] == a[1..] + b;
        if |a| >= |w| {
          assert s[..|w|] == a[..|w|];
        } else {
          // A match at position 0 would put the last character of `a` in `w`.
          assert s[..|w|][|a| - 1] == a[|a| - 1];
        }
        if |a| > 1 {
          assert a[1..][|a[1..]| - 1] == a[|a| - 1];
        }
        OccurrencesConcat(a[1..], b, w);
      }
    }
  }

  /** A text without the first character of `w` has no occurrence of `w`. */
  lemma {:induction false} OccurrencesAbsent(s: string, w: string)
    requires |w| > 0 && w[0] !in s
    ensures Occurrences(s, w) == 0
    decreases |s|
  {
    if |s| >= |w| {
      assert s[..|w|][0] == s[0];
      assert forall c :: c in s[1..] ==> c in s;
      OccurrencesAbsent(s[1..], w);
    }
  }

  /** `w` followed by text that never repeats its first character occurs once. */
  lemma OccurrencesLeading(w: string, rest: string)
    requires |w| > 0
    requires w[0] !in w[1..] + rest
    ensures Occurrences(w + rest, w) == 1
  {
    var s := w + rest;
    assert s[..|w|] == w;
    assert s[1..] == w[1..] + rest;
    OccurrencesAbsent(s[1..], w);
  }
}
