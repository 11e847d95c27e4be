/** Substring search over text, the `String.prototype.includes` the referees' verdicts are found with. */
module TextSearch {

  /** `s.includes(pat)`: whether `pat` occurs in `s` as a contiguous run of characters. */
  predicate Contains(s: string, pat: string)
    decreases |s|
  {
    if |s| < |pat| then false
    else s[..|pat|] == pat || Contains(s[1..], pat)
  }

  /** `pat` occurs in `s` starting at position `i`. */
  ghost predicate OccursAt(s: string, pat: string, i: int) {
    0 <= i && i + |pat| <= |s| && s[i..i + |pat|] == pat
  }

  /** Against a text of its own length, the scan finds `pat` exactly when the text is `pat`. */
  lemma {:induction false} ContainsSameLength(s: string, pat: string)
    requires |s| == |pat|
    ensures Contains(s, pat) <==> s == pat
  {
    assert s[..|pat|] == s;
    if |s| > 0 {
      assert !Contains(s[1..], pat);
    }
  }

  /** The scan finds `pat` exactly when it occurs somewhere in `s`. */
  lemma {:induction false} ContainsIffOccurs(s: string, pat: string)
    ensures Contains(s, pat) <==> exists i :: OccursAt(s, pat, i)
    decreases |s|
  {
    if |s| < |pat| {
      forall i ensures !OccursAt(s, pat, i) {}
    } else if s[..|pat|] == pat {
      assert OccursAt(s, pat, 0);
    } else {
      ContainsIffOccurs(s[1..], pat);
      if Contains(s[1..], pat) {
        var j :| OccursAt(s[1..], pat, j);
        assert s[1..][j..j + |pat|] == s[j + 1..j + 1 + |pat|];
        assert OccursAt(s, pat, j + 1);
      } else {
        forall i | OccursAt(s, pat, i) ensures false {
          if i > 0 {
            assert s[1..][i - 1..i - 1 + |pat|] == s[i..i + |pat|];
            assert OccursAt(s[1..], pat, i - 1);
          }
        }
      }
    }
  }
}
