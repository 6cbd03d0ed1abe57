/** The Python string operations the source relies on: `lower`, `strip`, `find`, `split`, `str(int)`. */
module Text {
  import opened Wrappers

  /** ASCII upper-case letters, the only characters the model's `lower` changes. */
  predicate IsUpper(c: char) { 'A' <= c <= 'Z' }

  function LowerChar(c: char): (d: char)
    ensures !IsUpper(d)
    ensures !IsUpper(c) ==> d == c
  {
    if IsUpper(c) then (c as int + 32) as char else c
  }

  /** No character of `s` is upper case. */
  predicate IsLower(s: string) { forall i :: 0 <= i < |s| ==> !IsUpper(s[i]) }

  /** `s.lower()` */
  function Lower(s: string): (r: string)
    ensures |r| == |s| && IsLower(r)
    ensures IsLower(s) ==> r == s
  {
    if s == [] then [] else [LowerChar(s[0])] + Lower(s[1..])
  }

  /** Lower-casing twice is lower-casing once. */
  lemma LowerIdempotent(s: string)
    ensures Lower(Lower(s)) == Lower(s)
  {
  }

  /** The characters `str.isspace` accepts. */
  predicate IsSpace(c: char)
  {
    c == ' ' || '\t' <= c <= '\r' || '\U{1c}' <= c <= '\U{1f}' || c == '\U{85}' || c == '\U{a0}'
    || c == '\U{1680}' || '\U{2000}' <= c <= '\U{200a}' || c == '\U{2028}' || c == '\U{2029}'
    || c == '\U{202f}' || c == '\U{205f}' || c == '\U{3000}'
  }

  /** `s.lstrip()` */
  function StripLeft(s: string): (r: string)
    ensures |r| <= |s| && r == s[|s| - |r|..]
    ensures r == [] || !IsSpace(r[0])
    ensures forall i :: 0 <= i < |s| - |r| ==> IsSpace(s[i])
  {
    if s != [] && IsSpace(s[0]) then StripLeft(s[1..]) else s
  }

  /** `s.rstrip()` */
  function StripRight(s: string): (r: string)
    ensures |r| <= |s| && r == s[..|r|]
    ensures r == [] || !IsSpace(r[|r| - 1])
    ensures forall i :: |r| <= i < |s| ==> IsSpace(s[i])
  {
    if s != [] && IsSpace(s[|s| - 1]) then StripRight(s[..|s| - 1]) else s
  }

  /** `s.strip()` */
  function Strip(s: string): (r: string)
    ensures r == [] || (!IsSpace(r[0]) && !IsSpace(r[|r| - 1]))
    ensures var k := |s| - |StripLeft(s)|; k + |r| <= |s| && r == s[k..k + |r|]
  {
    StripRight(StripLeft(s))
  }

  /** `pat` occurs in `s` at position `i`. */
  predicate OccursAt(s: string, pat: string, i: int)
  {
    0 <= i && i + |pat| <= |s| && s[i..i + |pat|] == pat
  }

  /** `pat in s` */
  predicate Contains(s: string, pat: string)
  {
    exists i | 0 <= i <= |s| - |pat| :: OccursAt(s, pat, i)
  }

  /** `s.find(pat)`, with `None` for Python's -1. */
  function Find(s: string, pat: string): (r: Option<nat>)
    ensures r.Some? ==> OccursAt(s, pat, r.value)
    ensures r.Some? ==> forall j :: 0 <= j < r.value ==> !OccursAt(s, pat, j)
    ensures r.None? <==> !Contains(s, pat)
    decreases |s|
  {
    if |s| < |pat| then
      assert forall j :: !OccursAt(s, pat, j);
      None
    else if s[..|pat|] == pat then
      assert OccursAt(s, pat, 0);
      Some(0)
    else
      match Find(s[1..], pat)
      case None =>
        assert forall j :: OccursAt(s, pat, j) ==> j > 0 && OccursAt(s[1..], pat, j - 1);
        None
      case Some(i) =>
        assert OccursAt(s[1..], pat, i) ==> OccursAt(s, pat, i + 1);
        assert forall j :: 0 < j <= i ==> OccursAt(s, pat, j) ==> OccursAt(s[1..], pat, j - 1);
        Some(i + 1)
  }

  /** A string that avoids `pat` has no piece that contains it. */
  lemma NotContainsSlice(s: string, pat: string, a: int, b: int)
    requires 0 <= a <= b <= |s|
    requires !Contains(s, pat)
    ensures !Contains(s[a..b], pat)
  {
    forall i | OccursAt(s[a..b], pat, i)
      ensures OccursAt(s, pat, a + i)
    {
      var u, v := s[a..b][i..i + |pat|], s[a + i..a + i + |pat|];
      assert forall k :: 0 <= k < |pat| ==> u[k] == v[k];
    }
  }

  /** No occurrence starts before the first one, so the text before it avoids `pat`. */
  lemma NotContainsPrefix(s: string, pat: string, i: nat)
    requires pat != [] && i <= |s|
    requires forall j :: 0 <= j < i ==> !OccursAt(s, pat, j)
    ensures !Contains(s[..i], pat)
  {
    forall j | OccursAt(s[..i], pat, j)
      ensures OccursAt(s, pat, j)
    {
      var u, v := s[..i][j..j + |pat|], s[j..j + |pat|];
      assert forall k :: 0 <= k < |pat| ==> u[k] == v[k];
    }
  }

  /** `s.split(sep)` for a non-empty separator. */
  function Split(s: string, sep: string): (parts: seq<string>)
    requires sep != []
    ensures |parts| >= 1
    decreases |s|
  {
    match Find(s, sep)
    case None => [s]
    case Some(i) => [s[..i]] + Split(s[i + |sep|..], sep)
  }

  /** `s.split(sep)` has a second piece exactly when `sep` occurs in `s`, and no piece holds `sep`. */
  lemma {:induction false} SplitPieces(s: string, sep: string)
    requires sep != []
    ensures |Split(s, sep)| >= 2 <==> Contains(s, sep)
    ensures forall k :: 0 <= k < |Split(s, sep)| ==> !Contains(Split(s, sep)[k], sep)
    decreases |s|
  {
    match Find(s, sep)
    case None =>
    case Some(i) =>
      var rest := s[i + |sep|..];
      SplitPieces(rest, sep);
      assert !Contains(s[..i], sep) by {
        NotContainsPrefix(s, sep, i);
      }
  }

  /** The text `s.split(sep)[1]`, that is after the first `sep` up to the next one, or `None`. */
  function SecondPiece(s: string, sep: string): (r: Option<string>)
    requires sep != []
    ensures r.None? <==> !Contains(s, sep)
    ensures r.Some? ==> !Contains(r.value, sep)
  {
    SplitPieces(s, sep);
    var parts := Split(s, sep);
    if |parts| >= 2 then Some(parts[1]) else None
  }

  /** The first character of `pat` occurs nowhere else in it, so no occurrence of `pat` can
      overlap the start of another one. */
  predicate HeadUnique(pat: string)
  {
    pat != [] && forall k :: 1 <= k < |pat| ==> pat[k] != pat[0]
  }

  /** When the text before an occurrence avoids `pat`, that occurrence is the first one. */
  lemma {:induction false} FindAfterAvoiding(a: string, pat: string, b: string)
    requires HeadUnique(pat) && !Contains(a, pat)
    ensures Find(a + pat + b, pat) == Some(|a|)
  {
    var s := a + pat + b;
    assert s[|a|..|a| + |pat|] == pat;
    assert OccursAt(s, pat, |a|);
    forall j | 0 <= j < |a|
      ensures !OccursAt(s, pat, j)
    {
      if j + |pat| <= |a| {
        assert s[j..j + |pat|] == a[j..j + |pat|];
        assert !OccursAt(a, pat, j);
      } else {
        var k := |a| - j;
        assert s[j + k] == pat[0] && pat[k] != pat[0];
        assert s[j..j + |pat|][k] == s[j + k];
      }
    }
  }

  /** `s.split(sep)[1]` is the text between the first `sep` and the next one (or the end). */
  lemma {:induction false} SecondPieceOf(a: string, sep: string, p: string, rest: string)
    requires HeadUnique(sep) && !Contains(a, sep) && !Contains(p, sep)
    requires rest == [] || (|rest| >= |sep| && rest[..|sep|] == sep)
    ensures SecondPiece(a + sep + p + rest, sep) == Some(p)
  {
    var s := a + sep + p + rest;
    assert s == a + sep + (p + rest);
    FindAfterAvoiding(a, sep, p + rest);
    assert s[|a| + |sep|..] == p + rest;
    if rest == [] {
      assert p + rest == p;
      assert Find(p, sep).None?;
      assert Split(p, sep) == [p];
    } else {
      assert p + rest == p + sep + rest[|sep|..];
      FindAfterAvoiding(p, sep, rest[|sep|..]);
      assert (p + rest)[..|p|] == p;
      assert Split(p + rest, sep)[0] == p;
    }
    assert Split(s, sep) == [s[..|a|]] + Split(p + rest, sep);
  }

  /** Stripping on the left stops before a non-space character. */
  lemma {:induction false} StripLeftConcat(u: string, v: string)
    requires v != [] && !IsSpace(v[0])
    ensures StripLeft(u + v) == StripLeft(u) + v
    decreases |u|
  {
    if u == [] {
      assert u + v == v;
    } else {
      assert (u + v)[0] == u[0] && (u + v)[1..] == u[1..] + v;
      if IsSpace(u[0]) {
        StripLeftConcat(u[1..], v);
      }
    }
  }

  /** Stripping on the right stops after a non-space character. */
  lemma {:induction false} StripRightConcat(u: string, v: string)
    requires u != [] && !IsSpace(u[|u| - 1])
    ensures StripRight(u + v) == u + StripRight(v)
    decreases |v|
  {
    if v == [] {
      assert u + v == u;
    } else {
      var w := u + v;
      assert w[|w| - 1] == v[|v| - 1] && w[..|w| - 1] == u + v[..|v| - 1];
      if IsSpace(v[|v| - 1]) {
        StripRightConcat(u, v[..|v| - 1]);
      }
    }
  }

  /** Stripping a text with non-space characters at both ends of a middle part only trims the
      outer parts. */
  lemma StripAround(a: string, m: string, q: string)
    requires m != [] && !IsSpace(m[0]) && !IsSpace(m[|m| - 1])
    ensures Strip(a + m + q) == StripLeft(a) + m + StripRight(q)
  {
    assert a + m + q == a + (m + q);
    StripLeftConcat(a, m + q);
    var u := StripLeft(a) + m;
    assert StripLeft(a) + (m + q) == u + q;
    StripRightConcat(u, q);
  }

  /** Stripping cannot create an occurrence. */
  lemma StripAvoids(s: string, pat: string)
    requires !Contains(s, pat)
    ensures !Contains(Strip(s), pat)
  {
    var k := |s| - |StripLeft(s)|;
    NotContainsSlice(s, pat, k, k + |Strip(s)|);
  }

  /** Regrouping a concatenation of five parts. */
  lemma Regroup<T>(a: seq<T>, b: seq<T>, c: seq<T>, d: seq<T>, e: seq<T>)
    ensures a + b + c + d + e == a + (b + c + d) + e
    ensures a + (b + c + d) + e == a + b + c + (d + e)
  {
  }

  /** Stripping a text around two separators only trims its two ends. */
  lemma StripAroundPiece(a: string, sep: string, p: string, q: string)
    requires sep != [] && !IsSpace(sep[0]) && !IsSpace(sep[|sep| - 1])
    ensures Strip(a + sep + p + sep + q) == StripLeft(a) + sep + p + (sep + StripRight(q))
  {
    var m := sep + p + sep;
    Regroup(a, sep, p, sep, q);
    StripAround(a, m, q);
    Regroup(StripLeft(a), sep, p, sep, StripRight(q));
  }

  /** `w` holds no whitespace. */
  predicate NoSpace(w: string) { forall i :: 0 <= i < |w| ==> !IsSpace(w[i]) }

  /** The whitespace-separated words of `s`, as `s.split()` returns them. */
  function Words(s: string): (ws: seq<string>)
    ensures forall k :: 0 <= k < |ws| ==> ws[k] != [] && NoSpace(ws[k])
    decreases |s|
  {
    if s == [] then []
    else if IsSpace(s[0]) then Words(s[1..])
    else
      var n := WordLength(s, 0);
      var w := s[..n];
      assert NoSpace(w);
      [w] + Words(s[n..])
  }

  /** The length of the run of non-space characters at the start of `t[from..]`, plus `from`. */
  function WordLength(t: string, from: nat): (n: nat)
    requires from <= |t|
    requires forall i :: 0 <= i < from ==> !IsSpace(t[i])
    ensures from <= n <= |t|
    ensures forall i :: 0 <= i < n ==> !IsSpace(t[i])
    ensures n == |t| || IsSpace(t[n])
    ensures from < |t| && !IsSpace(t[from]) ==> from < n
    decreases |t| - from
  {
    if from == |t| || IsSpace(t[from]) then from else WordLength(t, from + 1)
  }

  /** A decimal digit. */
  function Digit(d: nat): (c: char)
    requires d < 10
    ensures '0' <= c <= '9'
  {
    "0123456789"[d]
  }

  /** The decimal numeral of a natural number. */
  function NatToString(n: nat): (s: string)
    ensures |s| >= 1 && forall i :: 0 <= i < |s| ==> '0' <= s[i] <= '9'
    decreases n
  {
    if n < 10 then [Digit(n)] else NatToString(n / 10) + [Digit(n % 10)]
  }

  /** `str(n)` for a Python int. */
  function IntToString(n: int): (s: string)
    ensures |s| >= 1
  {
    if n < 0 then "-" + NatToString(-n) else NatToString(n)
  }
}
