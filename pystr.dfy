/** The three Python string operations the decomposition relies on:
    `str.find`, `str.rfind` and slicing with non-negative bounds. */
module PyStr {

  /** `s.find(c)`: the index of the first occurrence of `c`, or -1. */
  function Find(s: string, c: char): (r: int)
    ensures -1 <= r < |s|
    ensures r == -1 <==> c !in s
    ensures r >= 0 ==> s[r] == c && c !in s[..r]
  {
    if |s| == 0 then -1
    else if s[0] == c then 0
    else
      var k := Find(s[1..], c);
      assert s == [s[0]] + s[1..];
      if k == -1 then -1
      else
        assert s[..k + 1] == [s[0]] + s[1..][..k];
        k + 1
  }

  /** `s.rfind(c)`: the index of the last occurrence of `c`, or -1. */
  function RFind(s: string, c: char): (r: int)
    ensures -1 <= r < |s|
    ensures r == -1 <==> c !in s
    ensures r >= 0 ==> s[r] == c && c !in s[r + 1..]
  {
    if |s| == 0 then -1
    else if s[|s| - 1] == c then |s| - 1
    else
      var k := RFind(s[..|s| - 1], c);
      assert s == s[..|s| - 1] + [s[|s| - 1]];
      if k == -1 then -1
      else
        assert s[k + 1..] == s[..|s| - 1][k + 1..] + [s[|s| - 1]];
        k
  }

  /** `s[lo:hi]` for non-negative bounds: the upper bound is clamped to the
      length, and the slice is empty when it does not lie above the lower one. */
  function Slice(s: string, lo: nat, hi: nat): (r: string)
    ensures r == [] <==> hi <= lo || |s| <= lo
    ensures lo < hi <= |s| ==> r == s[lo..hi]
    ensures lo < |s| < hi ==> r == s[lo..]
  {
    var top := if hi < |s| then hi else |s|;
    if lo < top then s[lo..top] else []
  }
}
