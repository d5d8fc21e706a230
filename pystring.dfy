/** The two string methods the webhook applies to a text body before matching
    it: `str.strip()` and `str.lower()` (app.py:105). */
module PyString {

  /** Python's `str.isspace` for one code point: ASCII tab to carriage return,
      the four information separators, space, NEL, no-break space and the
      Unicode space and line/paragraph separators. */
  predicate IsSpace(c: char)
    ensures '!' <= c <= '~' ==> !IsSpace(c)
    ensures IsSpace(c) ==> '\t' <= c <= '\U{3000}'
  {
    ('\t' <= c <= '\r') || ('\U{1C}' <= c <= ' ') || c == '\U{85}' || c == '\U{A0}'
    || c == '\U{1680}' || ('\U{2000}' <= c <= '\U{200A}') || c == '\U{2028}'
    || c == '\U{2029}' || c == '\U{202F}' || c == '\U{205F}' || c == '\U{3000}'
  }

  predicate AllSpace(s: string) {
    forall i :: 0 <= i < |s| ==> IsSpace(s[i])
  }

  /** `s.lstrip()`: the longest suffix of `s` that does not start with whitespace. */
  function LStrip(s: string): (r: string)
    ensures |r| <= |s| && r == s[|s| - |r|..]
    ensures forall i :: 0 <= i < |s| - |r| ==> IsSpace(s[i])
    ensures r == [] || !IsSpace(r[0])
  {
    if s != [] && IsSpace(s[0]) then LStrip(s[1..]) else s
  }

  /** `s.rstrip()`: the longest prefix of `s` that does not end with whitespace. */
  function RStrip(s: string): (r: string)
    ensures |r| <= |s| && r == s[..|r|]
    ensures forall i :: |r| <= i < |s| ==> IsSpace(s[i])
    ensures r == [] || !IsSpace(r[|r| - 1])
  {
    if s != [] && IsSpace(s[|s| - 1]) then RStrip(s[..|s| - 1]) else s
  }

  /** `s.strip()`. */
  function Strip(s: string): (r: string)
    ensures |r| <= |s|
    ensures exists a :: 0 <= a <= |s| - |r| && r <= s[a..]
    ensures r == [] || (!IsSpace(r[0]) && !IsSpace(r[|r| - 1]))
    ensures r == [] <==> AllSpace(s)
  {
    var l := LStrip(s);
    var r := RStrip(l);
    var n := |s| - |l|;
    assert 0 <= n <= |s| - |r| && r <= s[n..] by {
      assert l == s[n..] && r == l[..|r|];
    }
    r
  }

  /** `str.lower()` on one code point, as far as it can produce an ASCII
      character: ASCII capitals, KELVIN SIGN (to `k`) and LATIN CAPITAL LETTER I
      WITH DOT ABOVE (to `i` followed by COMBINING DOT ABOVE). Every other code
      point is kept. */
  function LowerChar(c: char): (r: string)
    ensures |r| >= 1
    ensures IsSpace(c) ==> r == [c]
    ensures forall i :: 0 <= i < |r| ==> !('A' <= r[i] <= 'Z')
    ensures 'A' <= c <= 'Z' ==> r == [(c as int + 32) as char] && 'a' <= r[0] <= 'z'
    ensures c < '\U{80}' && !('A' <= c <= 'Z') ==> r == [c]
  {
    if 'A' <= c <= 'Z' then [(c as int + 32) as char]
    else if c == '\U{130}' then ['i', '\U{307}']
    else if c == '\U{212A}' then ['k']
    else [c]
  }

  predicate IsAscii(s: string) {
    forall i :: 0 <= i < |s| ==> s[i] < '\U{80}'
  }

  /** `s.lower()`, character by character. */
  function Lower(s: string): (r: string)
    ensures |r| >= |s|
    ensures forall i :: 0 <= i < |r| ==> !('A' <= r[i] <= 'Z')
    ensures IsAscii(s) ==> |r| == |s| && forall i :: 0 <= i < |s| ==> [r[i]] == LowerChar(s[i])
  {
    if s == [] then [] else LowerChar(s[0]) + Lower(s[1..])
  }

  /** The text the command table is matched against: `body.strip().lower()`. */
  function Normalize(body: string): (r: string)
    ensures forall i :: 0 <= i < |r| ==> !('A' <= r[i] <= 'Z')
    ensures r == [] <==> AllSpace(body)
  {
    Lower(Strip(body))
  }

  /** Stripping is determined by where the non-blank core of the string lies:
      whatever surrounds a core that starts and ends with a non-space is removed. */
  lemma StripIsCore(x: string, a: nat, r: string)
    requires a + |r| <= |x| && r == x[a..a + |r|]
    requires AllSpace(x[..a]) && AllSpace(x[a + |r|..])
    requires r == [] || (!IsSpace(r[0]) && !IsSpace(r[|r| - 1]))
    ensures Strip(x) == r
  {
    if r == [] {
      BlankJoin(x, a);
      LStripAllSpace(x);
    } else {
      LStripFrom(x, a);
      CoreOfSuffix(x, a, r);
    }
  }

  lemma BlankJoin(x: string, a: nat)
    requires a <= |x| && AllSpace(x[..a]) && AllSpace(x[a..])
    ensures AllSpace(x)
  {
    forall i | 0 <= i < |x| ensures IsSpace(x[i]) {
      if i < a { assert x[..a][i] == x[i]; } else { assert x[a..][i - a] == x[i]; }
    }
  }

  lemma CoreOfSuffix(x: string, a: nat, r: string)
    requires r != [] && a + |r| <= |x| && r == x[a..a + |r|]
    requires AllSpace(x[a + |r|..]) && !IsSpace(r[|r| - 1])
    ensures RStrip(x[a..]) == r
  {
    var l := x[a..];
    assert l[|r|..] == x[a + |r|..];
    assert l[..|r|] == r;
    RStripTo(l, |r|);
  }

  /** `lstrip` of an all-blank string is empty. */
  lemma LStripAllSpace(x: string)
    requires AllSpace(x)
    ensures LStrip(x) == []
  {
  }

  /** `lstrip` removes exactly a leading run of spaces followed by a non-space. */
  lemma LStripFrom(x: string, a: nat)
    requires a < |x| && AllSpace(x[..a]) && !IsSpace(x[a])
    ensures LStrip(x) == x[a..]
  {
    var l := LStrip(x);
    var n := |x| - |l|;
    assert forall i :: 0 <= i < a ==> IsSpace(x[i]) by {
      forall i | 0 <= i < a ensures IsSpace(x[i]) { assert x[..a][i] == x[i]; }
    }
    assert n < |x| ==> l[0] == x[n];
  }

  /** `rstrip` removes exactly a trailing run of spaces after a non-space. */
  lemma RStripTo(y: string, m: nat)
    requires 0 < m <= |y| && AllSpace(y[m..]) && !IsSpace(y[m - 1])
    ensures RStrip(y) == y[..m]
  {
    var r := RStrip(y);
    assert forall i :: m <= i < |y| ==> IsSpace(y[i]) by {
      forall i | m <= i < |y| ensures IsSpace(y[i]) { assert y[m..][i - m] == y[i]; }
    }
    assert r != [] ==> r[|r| - 1] == y[|r| - 1];
  }

  /** `v` spells `w` letter by letter, each letter either as it is or as its
      ASCII capital. */
  predicate SameUpToCase(v: string, w: string) {
    |v| == |w| &&
    forall i :: 0 <= i < |v| ==> v[i] == w[i] || ('A' <= v[i] <= 'Z' && (v[i] as int + 32) as char == w[i])
  }

  /** Lower-casing any capitalisation of an ASCII word without capitals gives
      the word back. */
  lemma {:induction false} LowerOfCapitalised(v: string, w: string)
    requires IsAscii(w) && forall i :: 0 <= i < |w| ==> !('A' <= w[i] <= 'Z')
    requires SameUpToCase(v, w)
    ensures Lower(v) == w
    decreases |v|
  {
    if v != [] {
      assert LowerChar(v[0]) == [w[0]];
      assert SameUpToCase(v[1..], w[1..]) by {
        forall i | 0 <= i < |v| - 1
          ensures v[1..][i] == w[1..][i] || ('A' <= v[1..][i] <= 'Z' && (v[1..][i] as int + 32) as char == w[1..][i])
        {
          assert v[1..][i] == v[i + 1] && w[1..][i] == w[i + 1];
        }
      }
      LowerOfCapitalised(v[1..], w[1..]);
      assert w == [w[0]] + w[1..];
    }
  }

  /** Appending to the input appends to the lower-cased result. */
  lemma {:induction false} LowerAppend(a: string, b: string)
    ensures Lower(a + b) == Lower(a) + Lower(b)
  {
    if a == [] {
      assert a + b == b;
    } else {
      assert (a + b)[0] == a[0] && (a + b)[1..] == a[1..] + b;
      LowerAppend(a[1..], b);
    }
  }

  /** The first and last characters of `Lower(v)` come from the first and last
      characters of `v`. */
  lemma LowerEnds(v: string)
    requires v != []
    ensures |Lower(v)| > 0
    ensures Lower(v)[0] == LowerChar(v[0])[0]
    ensures Lower(v)[|Lower(v)| - 1] == LowerChar(v[|v| - 1])[|LowerChar(v[|v| - 1])| - 1]
  {
    var n := |v| - 1;
    assert v == v[..n] + [v[n]];
    LowerAppend(v[..n], [v[n]]);
    assert Lower([v[n]]) == LowerChar(v[n]) by {
      assert [v[n]][1..] == [];
    }
  }

  /** Surrounding whitespace does not matter, and a word whose outermost
      characters are not blank passes `strip()` untouched before lower-casing. */
  lemma NormalizePadded(p: string, v: string, q: string)
    requires AllSpace(p) && AllSpace(q)
    requires v != [] && !IsSpace(v[0]) && !IsSpace(v[|v| - 1])
    ensures Normalize(p + v + q) == Lower(v)
  {
    var x := p + v + q;
    assert x[|p|..|p| + |v|] == v;
    assert x[..|p|] == p;
    assert x[|p| + |v|..] == q;
    StripIsCore(x, |p|, v);
  }
}
