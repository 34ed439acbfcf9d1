/** The three JavaScript string tests the router uses: `startsWith`, `endsWith` and `includes`. */
module Strings {

  /** `s.startsWith(p)`. */
  predicate StartsWith(s: string, p: string) {
    |p| <= |s| && s[..|p|] == p
  }

  /** `s.endsWith(p)`; also what the anchored regular expression `\.(…)$` tests per extension. */
  predicate EndsWith(s: string, p: string) {
    |p| <= |s| && s[|s| - |p|..] == p
  }

  /** `s.includes(sub)`: `sub` starts at some position of `s`. */
  predicate Contains(s: string, sub: string)
    decreases |s|
  {
    StartsWith(s, sub) || (|s| > 0 && Contains(s[1..], sub))
  }

  /** `sub` occurs in `s` starting at index `i`. */
  ghost predicate OccursAt(s: string, sub: string, i: nat) {
    i + |sub| <= |s| && s[i..i + |sub|] == sub
  }

  /** `Contains` agrees with the positional reading of `includes`. */
  lemma {:induction false} ContainsIffOccurs(s: string, sub: string)
    ensures Contains(s, sub) <==> exists i: nat :: OccursAt(s, sub, i)
  {
    if StartsWith(s, sub) {
      assert OccursAt(s, sub, 0);
    } else if |s| > 0 {
      ContainsIffOccurs(s[1..], sub);
      forall i: nat ensures OccursAt(s[1..], sub, i) <==> OccursAt(s, sub, i + 1) {
        if i + 1 + |sub| <= |s| {
          assert s[1..][i..i + |sub|] == s[i + 1..i + 1 + |sub|];
        }
      }
      assert !OccursAt(s, sub, 0) by {
        if |sub| <= |s| {
          assert s[0..|sub|] == s[..|sub|];
        }
      }
      if Contains(s, sub) {
        var i: nat :| OccursAt(s[1..], sub, i);
        assert OccursAt(s, sub, i + 1);
      } else {
        forall i: nat ensures !OccursAt(s, sub, i) {
          if i > 0 {
            assert !OccursAt(s[1..], sub, i - 1);
          }
        }
      }
    }
  }

  /** A string that starts with `p` contains every part of `p`. */
  lemma {:induction false} StartsWithContains(s: string, p: string, k: nat, sub: string)
    requires StartsWith(s, p) && OccursAt(p, sub, k)
    ensures Contains(s, sub)
  {
    assert s[k..k + |sub|] == p[k..k + |sub|];
    assert OccursAt(s, sub, k);
    ContainsIffOccurs(s, sub);
  }

  /** A string lacking the first character of `sub` does not contain `sub`. */
  lemma {:induction false} NoOccurrence(s: string, sub: string)
    requires |sub| > 0 && sub[0] !in s
    ensures !Contains(s, sub)
  {
    if |s| > 0 {
      assert s[0] != sub[0];
      NoOccurrence(s[1..], sub);
    }
  }

  /** A string shorter than `sub` does not contain it. */
  lemma {:induction false} ShorterNotContains(s: string, sub: string)
    requires |s| < |sub|
    ensures !Contains(s, sub)
  {
    if |s| > 0 {
      ShorterNotContains(s[1..], sub);
    }
  }

  /** A string that ends with `p` contains the first character of `p`. */
  lemma EndsWithHasFirst(s: string, p: string)
    requires EndsWith(s, p) && |p| > 0
    ensures p[0] in s
  {
    assert s[|s| - |p|..][0] == s[|s| - |p|];
  }
}
