/** Python's string trimming, splitting and searching, as far as the sources here rely on them. */
module Text {
  import opened Wrappers

  predicate Space(c: char) {
    c in {' ', '\t', '\n', '\r', '\U{0B}', '\U{0C}', '\U{1C}', '\U{1D}', '\U{1E}', '\U{1F}', '\U{85}', '\U{A0}'}
  }

  function LStrip(s: string): string {
    if s != [] && Space(s[0]) then LStrip(s[1..]) else s
  }

  function RStrip(s: string): string {
    if s != [] && Space(s[|s| - 1]) then RStrip(s[..|s| - 1]) else s
  }

  function Strip(s: string): string {
    RStrip(LStrip(s))
  }

  predicate Trim(s: string) {
    s == [] || (!Space(s[0]) && !Space(s[|s| - 1]))
  }

  lemma {:induction false} LStripIsSuffix(s: string) returns (k: nat)
    ensures k <= |s| && LStrip(s) == s[k..]
    ensures forall i :: 0 <= i < k ==> Space(s[i])
    ensures k < |s| ==> !Space(s[k])
  {
    if s != [] && Space(s[0]) {
      var j := LStripIsSuffix(s[1..]);
      assert s[1..][j..] == s[j + 1..];
      k := j + 1;
    } else {
      k := 0;
      assert s[0..] == s;
    }
  }

  lemma {:induction false} RStripIsPrefix(s: string) returns (k: nat)
    ensures k <= |s| && RStrip(s) == s[..k]
    ensures forall i :: k <= i < |s| ==> Space(s[i])
    ensures k > 0 ==> !Space(s[k - 1])
  {
    if s != [] && Space(s[|s| - 1]) {
      k := RStripIsPrefix(s[..|s| - 1]);
      assert s[..|s| - 1][..k] == s[..k];
    } else {
      k := |s|;
      assert s[..k] == s;
    }
  }

  lemma {:induction false} StripIsTrim(s: string)
    ensures Trim(Strip(s))
    ensures |Strip(s)| <= |s|
  {
    var k := LStripIsSuffix(s);
    var t := s[k..];
    var j := RStripIsPrefix(t);
    assert Strip(s) == t[..j];
  }

  lemma {:induction false} TrimIsFixed(s: string)
    requires Trim(s)
    ensures Strip(s) == s && LStrip(s) == s && RStrip(s) == s
  {
  }

  lemma {:induction false} StripTwice(s: string)
    ensures Strip(Strip(s)) == Strip(s)
  {
    StripIsTrim(s);
    TrimIsFixed(Strip(s));
  }

  function Lower(s: string): (r: string)
    ensures |r| == |s|
  {
    seq(|s|, i requires 0 <= i < |s| => if 'A' <= s[i] <= 'Z' then ((s[i] as int) + 32) as char else s[i])
  }

  ghost predicate Blanks(s: string) {
    forall i :: 0 <= i < |s| ==> Space(s[i])
  }

  lemma {:induction false} LStripBlanks(l: string, x: string)
    requires Blanks(l)
    ensures LStrip(l + x) == LStrip(x)
  {
    if l == [] {
      assert l + x == x;
    } else {
      assert (l + x)[1..] == l[1..] + x;
      LStripBlanks(l[1..], x);
    }
  }

  lemma {:induction false} RStripBlanks(x: string, r: string)
    requires Blanks(r)
    ensures RStrip(x + r) == RStrip(x)
  {
    if r == [] {
      assert x + r == x;
    } else {
      assert (x + r)[..|x + r| - 1] == x + r[..|r| - 1];
      RStripBlanks(x, r[..|r| - 1]);
    }
  }

  /** A string that ends visibly shields what precedes it from `rstrip`. */
  lemma {:induction false} RStripAppend(a: string, b: string)
    requires a != [] && !Space(a[|a| - 1])
    ensures RStrip(a + b) == a + RStrip(b)
  {
    if b == [] {
      assert a + b == a && a + RStrip(b) == a;
    } else if Space(b[|b| - 1]) {
      assert (a + b)[..|a + b| - 1] == a + b[..|b| - 1];
      RStripAppend(a, b[..|b| - 1]);
    }
  }

  lemma {:induction false} LStripAppend(a: string, b: string)
    requires LStrip(a) != []
    ensures LStrip(a + b) == LStrip(a) + b
  {
    if Space(a[0]) {
      assert (a + b)[1..] == a[1..] + b;
      LStripAppend(a[1..], b);
    }
  }

  lemma {:induction false} StripBlanksAfter(a: string, b: string)
    requires Blanks(b)
    ensures Strip(a + b) == Strip(a)
  {
    if LStrip(a) != [] {
      LStripAppend(a, b);
      RStripBlanks(LStrip(a), b);
    } else {
      var k := LStripIsSuffix(a);
      LStripBlanks(a, b);
      LStripBlanks(b, []);
      assert b + [] == b;
    }
  }

  lemma {:induction false} StripOfRStrip(x: string)
    ensures Strip(RStrip(x)) == Strip(x)
  {
    var k := RStripIsPrefix(x);
    assert x == x[..k] + x[k..];
    StripBlanksAfter(x[..k], x[k..]);
  }

  lemma {:induction false} RStripNewline(x: string)
    ensures RStrip("\n" + x) == if RStrip(x) == "" then "" else "\n" + RStrip(x)
  {
    var k := RStripIsPrefix(x);
    assert "\n" + x == ("\n" + x[..k]) + x[k..];
    RStripBlanks("\n" + x[..k], x[k..]);
    if k == 0 {
      assert RStrip("\n")  == RStrip([]) == [];
    }
  }

  lemma {:induction false} StripPadded(l: string, f: string, r: string)
    requires Blanks(l) && Blanks(r) && Trim(f)
    ensures Strip(l + f + r) == f
  {
    assert l + f + r == l + (f + r);
    LStripBlanks(l, f + r);
    if f == [] {
      assert f + r == r + [] && LStrip([]) == [];
      LStripBlanks(r, []);
    } else {
      RStripBlanks(f, r);
    }
  }

  // ---------------------------------------------------------------- splitting at one character

  function Before(s: string, c: char): string {
    if s == [] || s[0] == c then [] else [s[0]] + Before(s[1..], c)
  }

  function After(s: string, c: char): (r: string)
    ensures c in s ==> |r| < |s|
  {
    if s == [] then [] else if s[0] == c then s[1..] else After(s[1..], c)
  }

  function SplitChar(s: string, c: char): (parts: seq<string>)
    ensures |parts| > 0
    decreases |s|
  {
    if c in s then [Before(s, c)] + SplitChar(After(s, c), c) else [s]
  }

  lemma {:induction false} CutAt(a: string, c: char, b: string)
    requires c !in a
    ensures Before(a + [c] + b, c) == a && After(a + [c] + b, c) == b
  {
    if a == [] {
      assert a + [c] + b == [c] + b;
    } else {
      assert (a + [c] + b)[1..] == a[1..] + [c] + b;
      CutAt(a[1..], c, b);
    }
  }

  lemma {:induction false} CutExists(s: string, c: char)
    requires c in s
    ensures s == Before(s, c) + [c] + After(s, c) && c !in Before(s, c)
  {
    if s[0] != c {
      CutExists(s[1..], c);
    }
  }

  lemma {:induction false} SplitCons(a: string, c: char, b: string)
    requires c !in a
    ensures SplitChar(a + [c] + b, c) == [a] + SplitChar(b, c)
  {
    assert (a + [c] + b)[|a|] == c;
    CutAt(a, c, b);
  }

  lemma {:induction false} SplitConcat(a: string, c: char, b: string)
    ensures SplitChar(a + [c] + b, c) == SplitChar(a, c) + SplitChar(b, c)
    decreases |a|
  {
    assert (a + [c] + b)[|a|] == c;
    if c in a {
      CutExists(a, c);
      var x, y := Before(a, c), After(a, c);
      assert a + [c] + b == x + [c] + (y + [c] + b);
      CutAt(x, c, y + [c] + b);
      SplitConcat(y, c, b);
    } else {
      CutAt(a, c, b);
    }
  }

  // ---------------------------------------------------------------- searching

  /** Where `pat` first occurs. */
  function Find(s: string, pat: string): Option<nat> {
    if pat <= s then Some(0)
    else if s == [] then None
    else
      match Find(s[1..], pat)
      case None => None
      case Some(k) => Some(k + 1)
  }

  ghost predicate Contains(s: string, pat: string) {
    exists i :: 0 <= i <= |s| && pat <= s[i..]
  }

  lemma {:induction false} FindNone(s: string, pat: string)
    requires !Contains(s, pat)
    ensures Find(s, pat) == None
  {
    assert s[0..] == s;
    if s == [] {
    } else {
      forall i | 0 <= i <= |s| - 1
        ensures !(pat <= s[1..][i..])
      {
        assert s[1..][i..] == s[i + 1..];
      }
      FindNone(s[1..], pat);
    }
  }

  /** If `pat` starts nowhere inside `a`, searching `a + b` is searching `b`. */
  lemma {:induction false} FindSkip(a: string, b: string, pat: string)
    requires forall i :: 0 <= i < |a| ==> !(pat <= (a + b)[i..])
    ensures Find(a + b, pat) == match Find(b, pat) { case None => None case Some(k) => Some(|a| + k) }
  {
    if a == [] {
      assert a + b == b;
    } else {
      assert (a + b)[0..] == a + b;
      assert (a + b)[1..] == a[1..] + b;
      forall i | 0 <= i < |a| - 1
        ensures !(pat <= (a[1..] + b)[i..])
      {
        assert (a[1..] + b)[i..] == (a + b)[i + 1..];
      }
      FindSkip(a[1..], b, pat);
    }
  }

  /** A pattern without line breaks cannot straddle the line break that starts `b`. */
  lemma {:induction false} NotAcross(a: string, b: string, core: string, i: nat)
    requires core != [] && '\n' !in core && !Contains(a, core)
    requires b != [] && b[0] == '\n' && i <= |a|
    ensures !(core <= (a + b)[i..])
  {
    var s := a + b;
    if i + |core| <= |a| {
      assert !(core <= a[i..]);
      assert s[i..] == a[i..] + b;
    } else if i + |core| <= |s| {
      assert s[i..][|a| - i] == '\n';
    }
  }

  /** A pattern whose first character is not in `a` can only start in `b`. */
  lemma {:induction false} OnlyInRest(a: string, b: string, pat: string, i: nat)
    requires pat != [] && pat[0] !in a && i < |a|
    ensures !(pat <= (a + b)[i..])
  {
    assert (a + b)[i..][0] == a[i];
  }

  lemma {:induction false} QuietJoin(a: string, b: string, core: string)
    requires core != [] && '\n' !in core && b != [] && b[0] == '\n'
    requires !Contains(a, core) && !Contains(b, core)
    ensures !Contains(a + b, core)
  {
    forall i | 0 <= i <= |a + b|
      ensures !(core <= (a + b)[i..])
    {
      if i <= |a| {
        NotAcross(a, b, core, i);
      } else {
        assert (a + b)[i..] == b[i - |a|..];
      }
    }
  }

  lemma {:induction false} QuietFront(a: string, b: string, core: string)
    requires core != [] && core[0] !in a && !Contains(b, core)
    ensures !Contains(a + b, core)
  {
    forall i | 0 <= i <= |a + b|
      ensures !(core <= (a + b)[i..])
    {
      if i < |a| {
        OnlyInRest(a, b, core, i);
      } else {
        assert (a + b)[i..] == b[i - |a|..];
      }
    }
  }

  lemma {:induction false} BackOccurs(a: string, d: char, core: string, i: nat)
    requires core != [] && i <= |a| + 1 && core <= (a + [d])[i..]
    ensures core[|core| - 1] == d || (i <= |a| && core <= a[i..])
  {
    var s := a + [d];
    assert s[i..][|core| - 1] == core[|core| - 1];
    if i + |core| <= |a| {
      assert a[i..] == s[i..][..|a| - i];
    }
  }

  lemma {:induction false} QuietBack(a: string, d: char, core: string)
    requires core != [] && core[|core| - 1] != d && !Contains(a, core)
    ensures !Contains(a + [d], core)
  {
    if i :| 0 <= i <= |a + [d]| && core <= (a + [d])[i..] {
      BackOccurs(a, d, core, i);
    }
  }

  lemma {:induction false} AroundOccurs(a: string, c: char, b: string, core: string, i: nat)
    requires core != [] && i <= |a| + 1 + |b| && core <= (a + [c] + b)[i..]
    ensures c in core || (i <= |a| && core <= a[i..]) || (i > |a| && core <= b[i - |a| - 1..])
  {
    var s := a + [c] + b;
    if i > |a| {
      assert s[i..] == b[i - |a| - 1..];
    } else if i + |core| <= |a| {
      assert a[i..] == s[i..][..|a| - i];
    } else {
      assert core[|a| - i] == s[i..][|a| - i] == c;
    }
  }

  /** A character the pattern does not have keeps the two sides apart. */
  lemma {:induction false} QuietAround(a: string, c: char, b: string, core: string)
    requires core != [] && c !in core && !Contains(a, core) && !Contains(b, core)
    ensures !Contains(a + [c] + b, core)
  {
    if i :| 0 <= i <= |a + [c] + b| && core <= (a + [c] + b)[i..] {
      AroundOccurs(a, c, b, core, i);
    }
  }

  lemma {:induction false} QuietPrefix(s: string, k: nat, core: string)
    requires k <= |s| && !Contains(s, core)
    ensures !Contains(s[..k], core)
  {
    forall i | 0 <= i <= k
      ensures !(core <= s[..k][i..])
    {
      assert s[..k][i..] == s[i..][..k - i];
    }
  }

  lemma {:induction false} QuietLonger(s: string, core: string, more: string)
    requires !Contains(s, core)
    ensures !Contains(s, core + more) && !Contains(s, "\n" + core)
  {
    forall i | 0 <= i <= |s|
      ensures !(core + more <= s[i..]) && !("\n" + core <= s[i..])
    {
      assert !(core <= s[i..]);
      if i < |s| {
        assert s[i..][1..] == s[i + 1..] && !(core <= s[i + 1..]);
        assert ("\n" + core)[1..] == core;
      }
      assert (core + more)[..|core|] == core;
    }
  }

  // ---------------------------------------------------------------- ordering

  /** Lexicographic order by code point. */
  predicate Leq(a: string, b: string) {
    if a == [] then true
    else if b == [] then false
    else a[0] < b[0] || (a[0] == b[0] && Leq(a[1..], b[1..]))
  }

  lemma {:induction false} LeqTotal(a: string, b: string)
    ensures Leq(a, b) || Leq(b, a)
    ensures Leq(a, b) && Leq(b, a) ==> a == b
  {
    if a != [] && b != [] && a[0] == b[0] {
      LeqTotal(a[1..], b[1..]);
      assert a == [a[0]] + a[1..] && b == [b[0]] + b[1..];
    }
  }

  lemma {:induction false} LeqTransitive(a: string, b: string, c: string)
    requires Leq(a, b) && Leq(b, c)
    ensures Leq(a, c)
  {
    if a != [] && b != [] && c != [] && a[0] == b[0] == c[0] {
      LeqTransitive(a[1..], b[1..], c[1..]);
    }
  }
}
