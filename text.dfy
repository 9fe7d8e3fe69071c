/**
 * The three Python string operations the bot relies on, over Dafny strings
 * (sequences of Unicode scalar values, as Python's `str` is a sequence of code points).
 */
module Text {

  /** `s.startswith(prefix)` */
  predicate StartsWith(s: string, prefix: string) {
    |prefix| <= |s| && s[..|prefix|] == prefix
  }

  /** `s[n:]` for a non-negative `n`: the suffix from index `n`, empty when `n` is past the end. */
  function SliceFrom(s: string, n: nat): (r: string)
    ensures |r| == if n <= |s| then |s| - n else 0
    ensures forall k :: 0 <= k < |r| ==> r[k] == s[n + k]
    ensures n <= |s| ==> s == s[..n] + r
  {
    if n <= |s| then s[n..] else ""
  }

  /** `sub in s`, defined by walking `s` from the front. */
  predicate Contains(s: string, sub: string)
    decreases |s|
  {
    StartsWith(s, sub) || (0 < |s| && Contains(s[1..], sub))
  }

  /** `Contains` holds exactly when `sub` occurs at some position of `s`. */
  lemma {:induction false} ContainsIff(s: string, sub: string)
    ensures Contains(s, sub) <==> exists i :: 0 <= i <= |s| && StartsWith(s[i..], sub)
    decreases |s|
  {
    if Contains(s, sub) {
      if StartsWith(s, sub) {
        assert s[0..] == s;
      } else {
        ContainsIff(s[1..], sub);
        var i :| 0 <= i <= |s[1..]| && StartsWith(s[1..][i..], sub);
        assert s[1..][i..] == s[i + 1..];
      }
    }
    if exists i :: 0 <= i <= |s| && StartsWith(s[i..], sub) {
      var i :| 0 <= i <= |s| && StartsWith(s[i..], sub);
      if i == 0 {
        assert s[0..] == s;
      } else {
        assert s[1..][i - 1..] == s[i..];
        ContainsIff(s[1..], sub);
      }
    }
  }
}
