/** Zone-name normalisation: strings.TrimRight(zoneName, ".") as getZoneInfo uses it. */
module Names {

  predicate EndsWithDot(s: string)
  {
    |s| > 0 && s[|s| - 1] == '.'
  }

  /** A run of n dots. */
  function Dots(n: nat): (d: string)
    ensures |d| == n
    ensures forall i :: 0 <= i < n ==> d[i] == '.'
  {
    if n == 0 then "" else Dots(n - 1) + "."
  }

  /**
   * The name with every trailing '.' removed (not just one): the result is a
   * prefix of s, what was cut off is all dots, and the result does not end
   * in a dot.
   */
  function TrimRightDots(s: string): (r: string)
    ensures |r| <= |s| && r == s[..|r|]
    ensures forall i :: |r| <= i < |s| ==> s[i] == '.'
    ensures !EndsWithDot(r)
  {
    if EndsWithDot(s) then TrimRightDots(s[..|s| - 1]) else s
  }

  /** Those three properties determine the trimmed name uniquely. */
  lemma TrimRightDotsUnique(s: string, r: string)
    requires |r| <= |s| && r == s[..|r|]
    requires forall i :: |r| <= i < |s| ==> s[i] == '.'
    requires !EndsWithDot(r)
    ensures r == TrimRightDots(s)
  {
  }

  /** Any number of extra trailing dots is removed as well. */
  lemma TrimRightDotsIgnoresDots(s: string, n: nat)
    ensures TrimRightDots(s + Dots(n)) == TrimRightDots(s)
  {
    var t := TrimRightDots(s);
    var u := s + Dots(n);
    assert u[..|t|] == t;
    forall i | |t| <= i < |u| ensures u[i] == '.' {
      if i >= |s| {
        assert u[i] == Dots(n)[i - |s|];
      }
    }
    TrimRightDotsUnique(u, t);
  }

  /** A name is left alone exactly when it does not end in a dot. */
  lemma TrimRightDotsFixed(s: string)
    ensures TrimRightDots(s) == s <==> !EndsWithDot(s)
  {
  }
}
