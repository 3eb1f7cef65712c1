/** Substring search, as `str::contains` with a string pattern does it. */
module Strings {

  /** `s` starts with `p`. */
  predicate StartsWith(s: string, p: string) {
    |p| <= |s| && s[..|p|] == p
  }

  /** `s.contains(sub)`: tries every start position from the left; the empty
      pattern is contained in every string. */
  function Contains(s: string, sub: string): bool
    decreases |s|
  {
    if StartsWith(s, sub) then true
    else if |s| == 0 then false
    else Contains(s[1..], sub)
  }

  /** `sub` occurs in `s` starting at position `i`. */
  ghost predicate OccursAt(s: string, sub: string, i: nat) {
    i + |sub| <= |s| && s[i..i + |sub|] == sub
  }

  /** The search finds `sub` exactly when it occurs somewhere in `s`. */
  lemma {:induction false} ContainsIffOccurs(s: string, sub: string)
    ensures Contains(s, sub) <==> exists i: nat :: OccursAt(s, sub, i)
    decreases |s|
  {
    if StartsWith(s, sub) {
      assert OccursAt(s, sub, 0);
    } else {
      // The first position is ruled out, so an occurrence starts further right.
      forall i: nat | OccursAt(s, sub, i)
        ensures 0 < i && OccursAt(s[1..], sub, i - 1)
      {
        assert s[..|sub|] == s[0..|sub|];
        assert s[1..][i - 1..i - 1 + |sub|] == s[i..i + |sub|];
      }
      if |s| > 0 {
        ContainsIffOccurs(s[1..], sub);
        if Contains(s[1..], sub) {
          var j: nat :| OccursAt(s[1..], sub, j);
          assert s[1..][j..j + |sub|] == s[j + 1..j + 1 + |sub|];
          assert OccursAt(s, sub, j + 1);
        }
      }
    }
  }

  /** Every string contains each of its substrings. */
  lemma ContainsSlice(s: string, i: nat, j: nat)
    requires i <= j <= |s|
    ensures Contains(s, s[i..j])
  {
    ContainsIffOccurs(s, s[i..j]);
    assert OccursAt(s, s[i..j], i);
  }
}
