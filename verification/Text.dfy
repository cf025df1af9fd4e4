/** Substrings. */
module Text {

  /** `sub` stands in `s` at position `i`. */
  predicate At(s: string, sub: string, i: int) {
    0 <= i && i + |sub| <= |s| && s[i..i + |sub|] == sub
  }

  ghost predicate Contains(s: string, sub: string) {
    exists i :: At(s, sub, i)
  }

  lemma AtChar(s: string, sub: string, i: int, k: nat)
    requires At(s, sub, i) && k < |sub|
    ensures s[i + k] == sub[k]
  {
    assert s[i..i + |sub|][k] == s[i + k];
  }

  lemma AtSuffix(a: string, b: string, sub: string, i: int)
    requires i >= 0
    ensures At(b, sub, i) <==> At(a + b, sub, |a| + i)
  {
    if i + |sub| <= |b| {
      assert (a + b)[|a| + i..|a| + i + |sub|] == b[i..i + |sub|];
    }
  }

  lemma AtPrefix(a: string, b: string, sub: string, i: int)
    requires i + |sub| <= |a|
    ensures At(a, sub, i) <==> At(a + b, sub, i)
  {
    if i >= 0 {
      assert (a + b)[i..i + |sub|] == a[i..i + |sub|];
    }
  }
}
