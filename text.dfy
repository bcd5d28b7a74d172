/** The few Python string operations the orchestrator relies on: `str.isspace`
    (for `str.strip`), `str.startswith`-style prefix tests and the `in` operator
    on strings (substring search). */
module Text {

  /** Python 3's `str.isspace()` for a single character: the characters whose
      bidirectional class is WS, B or S, or whose category is Zs. */
  predicate IsSpace(c: char) {
    || ('\t' <= c <= '\r')
    || ('\U{1C}' <= c <= '\U{1F}')
    || c == ' '
    || c == '\U{85}'
    || c == '\U{A0}'
    || c == '\U{1680}'
    || ('\U{2000}' <= c <= '\U{200A}')
    || c == '\U{2028}'
    || c == '\U{2029}'
    || c == '\U{202F}'
    || c == '\U{205F}'
    || c == '\U{3000}'
  }

  predicate AllSpace(s: string) {
    forall k :: 0 <= k < |s| ==> IsSpace(s[k])
  }

  /** True when `s` is empty or neither begins nor ends with whitespace. */
  predicate Trimmed(s: string) {
    s != [] ==> !IsSpace(s[0]) && !IsSpace(s[|s| - 1])
  }

  predicate StartsWith(s: string, prefix: string) {
    |prefix| <= |s| && s[..|prefix|] == prefix
  }

  /** `p` occurs in `s` starting at index `i`. */
  predicate OccursAt(s: string, p: string, i: nat) {
    i + |p| <= |s| && s[i..i + |p|] == p
  }

  /** `p in s` for Python strings: `p` occurs somewhere in `s`. */
  function Contains(s: string, p: string): (r: bool)
    ensures r <==> exists i :: OccursAt(s, p, i)
    decreases |s|
  {
    if |s| < |p| then false
    else if s[..|p|] == p then assert OccursAt(s, p, 0); true
    else
      var r := Contains(s[1..], p);
      assert !OccursAt(s, p, 0);
      assert forall i: nat :: OccursAt(s[1..], p, i) ==> OccursAt(s, p, i + 1);
      assert forall i: nat :: 0 < i && OccursAt(s, p, i) ==> OccursAt(s[1..], p, i - 1);
      r
  }

  /** `lstrip()`: drops the leading whitespace. */
  function StripLeft(s: string): (r: string)
    ensures |r| <= |s| && r == s[|s| - |r|..]
    ensures AllSpace(s[..|s| - |r|])
    ensures r != [] ==> !IsSpace(r[0])
  {
    if s != [] && IsSpace(s[0]) then StripLeft(s[1..]) else s
  }

  /** `rstrip()`: drops the trailing whitespace. */
  function StripRight(s: string): (r: string)
    ensures |r| <= |s| && r == s[..|r|]
    ensures AllSpace(s[|r|..])
    ensures r != [] ==> !IsSpace(r[|r| - 1])
  {
    if s != [] && IsSpace(s[|s| - 1]) then
      var r := StripRight(s[..|s| - 1]);
      assert s[|r|..] == s[..|s| - 1][|r|..] + [s[|s| - 1]];
      r
    else s
  }

  /** `strip()`: the slice of `s` left once the whitespace at both ends is gone. */
  function Strip(s: string): (r: string)
    ensures Trimmed(r)
    ensures exists i, j :: 0 <= i <= j <= |s| && r == s[i..j] && AllSpace(s[..i]) && AllSpace(s[j..])
  {
    var left := StripLeft(s);
    var r := StripRight(left);
    var i := |s| - |left|;
    assert r == s[i..i + |r|];
    assert s[i + |r|..] == left[|r|..];
    r
  }

  /** The other half of `strip`'s meaning: whitespace padding on either side of
      a trimmed string is exactly what `strip` takes away. */
  lemma StripPadded(a: string, m: string, b: string)
    requires AllSpace(a) && AllSpace(b) && Trimmed(m)
    ensures Strip(a + m + b) == m
  {
    assert a + m + b == a + (m + b);
    StripLeftPadded(a, m + b, m);
    StripRightPadded(m, b);
  }

  lemma {:induction false} StripLeftPadded(a: string, t: string, m: string)
    requires AllSpace(a) && Trimmed(m) && StartsWith(t, m)
    requires m == [] ==> AllSpace(t)
    ensures StripLeft(a + t) == (if m == [] then [] else t)
    decreases |a|
  {
    if a == [] {
      assert a + t == t;
      if m == [] {
        StripLeftAllSpace(t);
      } else {
        assert t[0] == m[0];
      }
    } else {
      assert (a + t)[1..] == a[1..] + t;
      StripLeftPadded(a[1..], t, m);
    }
  }

  lemma StripLeftAllSpace(t: string)
    requires AllSpace(t)
    ensures StripLeft(t) == []
    decreases |t|
  {
  }

  lemma {:induction false} StripRightPadded(m: string, b: string)
    requires AllSpace(b) && Trimmed(m)
    ensures StripRight(m + b) == m
    decreases |b|
  {
    if b == [] {
      assert m + b == m;
      if m != [] {
        assert !IsSpace(m[|m| - 1]);
      }
    } else {
      assert (m + b)[..|m + b| - 1] == m + b[..|b| - 1];
      StripRightPadded(m, b[..|b| - 1]);
    }
  }
}
