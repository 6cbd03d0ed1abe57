/** Python list slicing and `collections.deque(maxlen=...)` appends. */
module Lists {

  /** No element occurs twice. */
  predicate NoDup<T(==)>(s: seq<T>)
  {
    forall i, j :: 0 <= i < j < |s| ==> s[i] != s[j]
  }

  /** The start index Python uses for `s[n:]` and the stop index for `s[:n]`. */
  function SliceIndex(len: nat, n: int): (k: nat)
    ensures k <= len
    ensures 0 <= n <= len ==> k == n
    ensures n > len ==> k == len
    ensures n < 0 ==> k == if len + n < 0 then 0 else len + n
  {
    if n >= 0 then (if n <= len then n else len)
    else if len + n < 0 then 0 else len + n
  }

  /** `s[:n]` */
  function Prefix<T>(s: seq<T>, n: int): (r: seq<T>)
    ensures |r| <= |s| && r == s[..|r|]
    ensures n >= 0 ==> |r| == if n <= |s| then n else |s|
  {
    s[..SliceIndex(|s|, n)]
  }

  /** `s[n:]` */
  function SuffixFrom<T>(s: seq<T>, n: int): (r: seq<T>)
    ensures |r| <= |s| && r == s[|s| - |r|..]
  {
    s[SliceIndex(|s|, n)..]
  }

  /** `d.append(x)` on a `deque(maxlen=cap)` holding `s`: the oldest entries fall off the front. */
  function AppendBounded<T>(s: seq<T>, x: T, cap: nat): (r: seq<T>)
    ensures |r| == if |s| + 1 <= cap then |s| + 1 else cap
    ensures r == (s + [x])[|s| + 1 - |r|..]
    ensures cap > 0 ==> r[|r| - 1] == x
  {
    var t := s + [x];
    if |t| <= cap then t else t[|t| - cap..]
  }

  /** A deque that was within its bound stays within it. */
  lemma AppendBoundedKeepsBound<T>(s: seq<T>, x: T, cap: nat)
    requires |s| <= cap
    ensures |AppendBounded(s, x, cap)| <= cap
    ensures cap > 0 && |s| < cap ==> AppendBounded(s, x, cap) == s + [x]
    ensures cap > 0 && |s| == cap ==> AppendBounded(s, x, cap) == s[1..] + [x]
  {
  }

  /** Every element after the append was there before or is the new one. */
  lemma AppendBoundedElements<T>(s: seq<T>, x: T, cap: nat)
    ensures forall y :: y in AppendBounded(s, x, cap) ==> y in s || y == x
  {
    var t := s + [x];
    forall y | y in AppendBounded(s, x, cap)
      ensures y in t
    {
      var i :| 0 <= i < |AppendBounded(s, x, cap)| && AppendBounded(s, x, cap)[i] == y;
      assert y == t[|s| + 1 - |AppendBounded(s, x, cap)| + i];
    }
  }
}
