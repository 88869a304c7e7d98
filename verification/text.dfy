/**
 * Character-level helpers for HTTP response bodies: Python's notion of
 * whitespace, `str.strip()` with no argument, and the substring test behind
 * `needle in text`.
 */
module Text {

  /** The characters for which Python's `str.isspace()` holds. */
  predicate IsSpace(c: char)
  {
    var k := c as int;
    || k == 0x20
    || 0x09 <= k <= 0x0d
    || 0x1c <= k <= 0x1f
    || k == 0x85 || k == 0xa0 || k == 0x1680
    || 0x2000 <= k <= 0x200a
    || k == 0x2028 || k == 0x2029 || k == 0x202f || k == 0x205f || k == 0x3000
  }

  predicate AllSpace(s: string)
  {
    forall i :: 0 <= i < |s| ==> IsSpace(s[i])
  }

  /** `s.lstrip()`: `s` without its leading whitespace. */
  function TrimStart(s: string): string
    decreases |s|
  {
    if |s| > 0 && IsSpace(s[0]) then TrimStart(s[1..]) else s
  }

  /** `s.rstrip()`: `s` without its trailing whitespace. */
  function TrimEnd(s: string): string
    decreases |s|
  {
    if |s| > 0 && IsSpace(s[|s| - 1]) then TrimEnd(s[..|s| - 1]) else s
  }

  /** `lstrip()` keeps a suffix of `s`, drops only whitespace, and stops at a non-space. */
  lemma {:induction false} TrimStartShape(s: string)
    ensures var r := TrimStart(s);
            |r| <= |s| && r == s[|s| - |r|..] && AllSpace(s[..|s| - |r|]) && (|r| > 0 ==> !IsSpace(r[0]))
    decreases |s|
  {
    if |s| > 0 && IsSpace(s[0]) {
      TrimStartShape(s[1..]);
      var r := TrimStart(s[1..]);
      assert s[..|s| - |r|] == [s[0]] + s[1..][..|s| - 1 - |r|];
    }
  }

  /** `rstrip()` keeps a prefix of `s`, drops only whitespace, and stops at a non-space. */
  lemma {:induction false} TrimEndShape(s: string)
    ensures var r := TrimEnd(s);
            |r| <= |s| && r == s[..|r|] && AllSpace(s[|r|..]) && (|r| > 0 ==> !IsSpace(r[|r| - 1]))
    decreases |s|
  {
    if |s| > 0 && IsSpace(s[|s| - 1]) {
      TrimEndShape(s[..|s| - 1]);
      var r := TrimEnd(s[..|s| - 1]);
      assert s[|r|..] == s[..|s| - 1][|r|..] + [s[|s| - 1]];
    }
  }

  /** `s.strip()`: `s` without its leading and trailing whitespace. */
  function Strip(s: string): string
  {
    TrimEnd(TrimStart(s))
  }

  /**
   * What `strip()` yields: a text with no whitespace at either end, which sits
   * inside `s` between a run of leading and a run of trailing whitespace.
   */
  lemma StripShape(s: string)
    ensures var r := Strip(s);
            |r| > 0 ==> !IsSpace(r[0]) && !IsSpace(r[|r| - 1])
    ensures var r := Strip(s);
            exists i :: 0 <= i <= |s| - |r| && s[i..i + |r|] == r
                        && AllSpace(s[..i]) && AllSpace(s[i + |r|..])
  {
    TrimStartShape(s);
    TrimEndShape(TrimStart(s));
    StripSlices(s, TrimStart(s), Strip(s));
  }

  /** Where the two trims leave their result inside `s`. */
  lemma StripSlices(s: string, t: string, r: string)
    requires |t| <= |s| && t == s[|s| - |t|..] && AllSpace(s[..|s| - |t|])
    requires |r| <= |t| && r == t[..|r|] && AllSpace(t[|r|..])
    ensures exists i :: 0 <= i <= |s| - |r| && s[i..i + |r|] == r
                        && AllSpace(s[..i]) && AllSpace(s[i + |r|..])
  {
    var i := |s| - |t|;
    assert s[i..i + |r|] == t[..|r|];
    assert s[i + |r|..] == t[|r|..];
    assert 0 <= i <= |s| - |r| && s[i..i + |r|] == r && AllSpace(s[..i]) && AllSpace(s[i + |r|..]);
  }

  lemma {:induction false} TrimStartPadded(a: string, w: string)
    requires AllSpace(a)
    requires |w| > 0 ==> !IsSpace(w[0])
    ensures TrimStart(a + w) == w
    decreases |a|
  {
    if |a| == 0 {
      assert a + w == w;
    } else {
      assert (a + w)[1..] == a[1..] + w;
      TrimStartPadded(a[1..], w);
    }
  }

  lemma {:induction false} TrimEndPadded(w: string, b: string)
    requires AllSpace(b)
    requires |w| > 0 ==> !IsSpace(w[|w| - 1])
    ensures TrimEnd(w + b) == w
    decreases |b|
  {
    if |b| == 0 {
      assert w + b == w;
    } else {
      assert (w + b)[..|w + b| - 1] == w + b[..|b| - 1];
      TrimEndPadded(w, b[..|b| - 1]);
    }
  }

  /** Surrounding `w` with whitespace on either side does not change what `strip()` yields. */
  lemma StripPadded(a: string, w: string, b: string)
    requires AllSpace(a) && AllSpace(b)
    requires |w| > 0 ==> !IsSpace(w[0]) && !IsSpace(w[|w| - 1])
    ensures Strip(a + w + b) == w
  {
    if |w| == 0 {
      assert a + w + b == (a + b) + "";
      TrimStartPadded(a + b, "");
    } else {
      assert a + w + b == a + (w + b);
      TrimStartPadded(a, w + b);
      TrimEndPadded(w, b);
    }
  }

  lemma PaddedSplit(s: string, i: nat, n: nat)
    requires i + n <= |s|
    ensures s == s[..i] + s[i..i + n] + s[i + n..]
  {
  }

  /**
   * For a word `w` without whitespace at its ends, `s.strip() == w` holds
   * exactly when `s` is `w` padded with whitespace on both sides.
   */
  lemma StripIsExact(s: string, w: string)
    requires |w| > 0 && !IsSpace(w[0]) && !IsSpace(w[|w| - 1])
    ensures Strip(s) == w <==>
            exists i :: 0 <= i <= |s| - |w| && s[i..i + |w|] == w
                        && AllSpace(s[..i]) && AllSpace(s[i + |w|..])
  {
    StripShape(s);
    if i :| 0 <= i <= |s| - |w| && s[i..i + |w|] == w && AllSpace(s[..i]) && AllSpace(s[i + |w|..]) {
      PaddedSplit(s, i, |w|);
      StripPadded(s[..i], w, s[i + |w|..]);
    }
  }

  /** `needle in hay` for two strings: `needle` occurs in `hay` as a contiguous slice. */
  predicate Contains(hay: string, needle: string)
  {
    exists i :: 0 <= i <= |hay| && needle <= hay[i..]
  }
}
