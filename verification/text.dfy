/** The string operations the screens call: `startsWith`, `includes` and
    `replace` with a string pattern (which replaces the first occurrence
    only). Case folding is not defined here: the search filters take the
    lower-casing function as a parameter. */
module Text {

  predicate IsPrefix(p: string, s: string) {
    |p| <= |s| && s[..|p|] == p
  }

  /** `s.includes(t)`: `t` occurs somewhere in `s`. */
  predicate Contains(s: string, t: string)
    decreases |s|
  {
    IsPrefix(t, s) || (|s| > 0 && Contains(s[1..], t))
  }

  /** Every string contains the empty string. */
  lemma ContainsEmpty(s: string)
    ensures Contains(s, "")
  {
    assert IsPrefix("", s);
  }

  /** The index of the first occurrence of `c` in `s`, if any. */
  function IndexOf(s: string, c: char): (r: int)
    ensures -1 <= r < |s|
    ensures r >= 0 ==> s[r] == c && forall i :: 0 <= i < r ==> s[i] != c
    ensures r == -1 ==> forall i :: 0 <= i < |s| ==> s[i] != c
    decreases |s|
  {
    if |s| == 0 then -1
    else if s[0] == c then 0
    else
      var k := IndexOf(s[1..], c);
      if k == -1 then -1 else k + 1
  }

  /** `s.replace(c, d)` for one-character strings: only the first occurrence. */
  function ReplaceFirst(s: string, c: char, d: char): (r: string)
    ensures |r| == |s|
    ensures c !in s ==> r == s
    ensures c in s ==> exists k :: 0 <= k < |s| && s[k] == c && r[k] == d && c !in s[..k]
                                      && forall i :: 0 <= i < |s| && i != k ==> r[i] == s[i]
  {
    var k := IndexOf(s, c);
    if k == -1 then s
    else
      var r := s[..k] + [d] + s[k + 1..];
      assert c !in s[..k];
      r
  }
}
