/** The few Python `str` operations the gateway relies on, over `string == seq<char>`. */
module Text {

  /** Python's `str.isspace` for one character: the characters `str.strip()` removes. */
  predicate IsSpace(c: char) {
    c in Whitespace
  }

  const Whitespace: set<char> :=
    {' ', '\t', '\n', '\r', '\U{0B}', '\U{0C}', '\U{1C}', '\U{1D}', '\U{1E}', '\U{1F}',
     '\U{85}', '\U{A0}', '\U{1680}', '\U{2000}', '\U{2001}', '\U{2002}', '\U{2003}',
     '\U{2004}', '\U{2005}', '\U{2006}', '\U{2007}', '\U{2008}', '\U{2009}', '\U{200A}',
     '\U{2028}', '\U{2029}', '\U{202F}', '\U{205F}', '\U{3000}'}

  predicate StartsWith(s: string, prefix: string) {
    |prefix| <= |s| && s[..|prefix|] == prefix
  }

  predicate EndsWith(s: string, suffix: string) {
    |suffix| <= |s| && s[|s| - |suffix|..] == suffix
  }

  /** Python's `needle in s` for strings. */
  predicate Contains(s: string, needle: string)
    decreases |s|
  {
    StartsWith(s, needle) || (|s| > 0 && Contains(s[1..], needle))
  }

  /** Python's `s[:n]` for `n >= 0`. */
  function Take(s: string, n: nat): (r: string)
    ensures |r| == if |s| < n then |s| else n
    ensures r == s[..|r|]
  {
    if |s| <= n then s else s[..n]
  }

  /** Number of leading characters satisfying `IsSpace`. */
  function LeadingSpaces(s: string): (k: nat)
    ensures k <= |s|
    ensures forall j :: 0 <= j < k ==> IsSpace(s[j])
    ensures k < |s| ==> !IsSpace(s[k])
  {
    if |s| > 0 && IsSpace(s[0]) then 1 + LeadingSpaces(s[1..]) else 0
  }

  /** Number of trailing characters satisfying `IsSpace`. */
  function TrailingSpaces(s: string): (k: nat)
    ensures k <= |s|
    ensures forall j :: |s| - k <= j < |s| ==> IsSpace(s[j])
    ensures k < |s| ==> !IsSpace(s[|s| - k - 1])
  {
    if |s| > 0 && IsSpace(s[|s| - 1]) then 1 + TrailingSpaces(s[..|s| - 1]) else 0
  }

  /** Python's `s.strip()`: drops the leading and the trailing whitespace. */
  function Trim(s: string): (r: string)
    ensures |r| <= |s|
    ensures |r| > 0 ==> !IsSpace(r[0]) && !IsSpace(r[|r| - 1])
  {
    var i := LeadingSpaces(s);
    if i == |s| then [] else s[i..|s| - TrailingSpaces(s)]
  }

  /** Python's `s.strip(c)` for a one-character argument. */
  function StripChar(s: string, c: char): (r: string)
    ensures |r| <= |s|
    ensures |r| > 0 ==> r[0] != c && r[|r| - 1] != c
    decreases |s|
  {
    if |s| > 0 && s[0] == c then StripChar(s[1..], c)
    else if |s| > 0 && s[|s| - 1] == c then StripChar(s[..|s| - 1], c)
    else s
  }

  /** `r` is the piece of `s` starting at `a`, and everything of `s` around it is `c`. */
  predicate CutFrom(s: string, r: string, c: char, a: int) {
    && 0 <= a && a + |r| <= |s| && r == s[a..a + |r|]
    && (forall j :: 0 <= j < a ==> s[j] == c)
    && (forall j :: a + |r| <= j < |s| ==> s[j] == c)
  }

  /** A cut of `s[1..]` is a cut of `s` when `s` starts with `c`. */
  lemma CutFromFront(s: string, r: string, c: char, a: int)
    requires |s| > 0 && s[0] == c && CutFrom(s[1..], r, c, a)
    ensures CutFrom(s, r, c, a + 1)
  {
    assert s[1..][a..a + |r|] == s[a + 1..a + 1 + |r|];
    assert forall j :: 1 <= j < a + 1 ==> s[j] == s[1..][j - 1];
    assert forall j :: a + 1 + |r| <= j < |s| ==> s[j] == s[1..][j - 1];
  }

  /** A cut of `s` without its last character is a cut of `s` when `s` ends with `c`. */
  lemma CutFromBack(s: string, r: string, c: char, a: int)
    requires |s| > 0 && s[|s| - 1] == c && CutFrom(s[..|s| - 1], r, c, a)
    ensures CutFrom(s, r, c, a)
  {
    assert s[..|s| - 1][a..a + |r|] == s[a..a + |r|];
  }

  /** `StripChar` removes copies of `c` at the two ends and nothing else. */
  lemma {:induction false} StripCharSlice(s: string, c: char)
    ensures exists a :: CutFrom(s, StripChar(s, c), c, a)
    decreases |s|
  {
    var r := StripChar(s, c);
    if |s| > 0 && s[0] == c {
      StripCharSlice(s[1..], c);
      var a :| CutFrom(s[1..], r, c, a);
      CutFromFront(s, r, c, a);
    } else if |s| > 0 && s[|s| - 1] == c {
      StripCharSlice(s[..|s| - 1], c);
      var a :| CutFrom(s[..|s| - 1], r, c, a);
      CutFromBack(s, r, c, a);
    } else {
      assert CutFrom(s, r, c, 0);
    }
  }

  /** Python's `s.rstrip(c)` for a one-character argument. */
  function RStripChar(s: string, c: char): (r: string)
    ensures StartsWith(s, r)
    ensures |r| > 0 ==> r[|r| - 1] != c
    ensures forall j :: |r| <= j < |s| ==> s[j] == c
  {
    if |s| > 0 && s[|s| - 1] == c then RStripChar(s[..|s| - 1], c) else s
  }

  /** Lower-casing of the ASCII letters (the model's reading of `str.lower`). */
  function LowerChar(c: char): char {
    if 'A' <= c <= 'Z' then (c as int - 'A' as int + 'a' as int) as char else c
  }

  /** Upper-casing of the ASCII letters (the model's reading of `str.upper`). */
  function UpperChar(c: char): char {
    if 'a' <= c <= 'z' then (c as int - 'a' as int + 'A' as int) as char else c
  }

  function Lower(s: string): (r: string)
    ensures |r| == |s|
    ensures forall i {:trigger r[i]} :: 0 <= i < |s| ==> r[i] == LowerChar(s[i])
  {
    seq(|s|, i requires 0 <= i < |s| => LowerChar(s[i]))
  }

  function Upper(s: string): (r: string)
    ensures |r| == |s|
    ensures forall i {:trigger r[i]} :: 0 <= i < |s| ==> r[i] == UpperChar(s[i])
  {
    seq(|s|, i requires 0 <= i < |s| => UpperChar(s[i]))
  }

  /** Python's `sep.join(parts)`. */
  function Join(parts: seq<string>, sep: string): string
    decreases |parts|
  {
    if |parts| == 0 then ""
    else if |parts| == 1 then parts[0]
    else parts[0] + sep + Join(parts[1..], sep)
  }

  /** Concatenation of all parts (`"".join(parts)`). */
  function Concat(parts: seq<string>): string
    decreases |parts|
  {
    if |parts| == 0 then "" else parts[0] + Concat(parts[1..])
  }

  function DigitChar(d: nat): char
    requires d < 10
  {
    "0123456789"[d]
  }

  /** Python's `str(n)` for a non-negative integer. */
  function NatToString(n: nat): (r: string)
    ensures |r| > 0
    decreases n
  {
    if n < 10 then [DigitChar(n)] else NatToString(n / 10) + [DigitChar(n % 10)]
  }

  /** Python's `str(i)` for any integer. */
  function IntToString(i: int): (r: string)
    ensures |r| > 0
  {
    if i < 0 then "-" + NatToString(-i) else NatToString(i)
  }

  // ---------------------------------------------------------------------------
  // Facts about the helpers

  /** Lower-casing keeps whitespace whitespace and everything else non-whitespace. */
  lemma LowerCharSpace(c: char)
    ensures IsSpace(LowerChar(c)) == IsSpace(c)
  {
  }

  lemma {:induction false} LeadingSpacesLower(s: string)
    ensures LeadingSpaces(Lower(s)) == LeadingSpaces(s)
    decreases |s|
  {
    if |s| > 0 {
      LowerCharSpace(s[0]);
      if IsSpace(s[0]) {
        assert Lower(s)[1..] == Lower(s[1..]);
        LeadingSpacesLower(s[1..]);
      }
    }
  }

  lemma {:induction false} TrailingSpacesLower(s: string)
    ensures TrailingSpaces(Lower(s)) == TrailingSpaces(s)
    decreases |s|
  {
    if |s| > 0 {
      var l, n := Lower(s), |s|;
      assert l[n - 1] == LowerChar(s[n - 1]);
      LowerCharSpace(s[n - 1]);
      if IsSpace(s[n - 1]) {
        assert l[..n - 1] == Lower(s[..n - 1]);
        TrailingSpacesLower(s[..n - 1]);
        assert TrailingSpaces(l) == 1 + TrailingSpaces(l[..n - 1]);
      } else {
        assert TrailingSpaces(l) == 0;
      }
    }
  }

  /** Trimming then lower-casing is the same as lower-casing then trimming. */
  lemma LowerTrimCommute(s: string)
    ensures Lower(Trim(s)) == Trim(Lower(s))
  {
    LeadingSpacesLower(s);
    TrailingSpacesLower(s);
    var i := LeadingSpaces(s);
    if i < |s| {
      LowerSlice(s, i, |s| - TrailingSpaces(s));
    }
  }

  /** Lower-casing commutes with slicing. */
  lemma LowerSlice(s: string, i: int, j: int)
    requires 0 <= i <= j <= |s|
    ensures Lower(s[i..j]) == Lower(s)[i..j]
  {
    var a, b := Lower(s[i..j]), Lower(s)[i..j];
    assert |a| == |b|;
    forall k | 0 <= k < |a|
      ensures a[k] == b[k]
    {
      assert s[i..j][k] == s[i + k];
    }
  }

  /** Lower-casing is idempotent. */
  lemma LowerIdempotent(s: string)
    ensures Lower(Lower(s)) == Lower(s)
  {
  }

  /** Trimming is idempotent. */
  lemma TrimIdempotent(s: string)
    ensures Trim(Trim(s)) == Trim(s)
  {
    var r := Trim(s);
    if |r| > 0 {
      assert LeadingSpaces(r) == 0;
      assert TrailingSpaces(r) == 0;
      assert r[0..|r|] == r;
    }
  }

  /** A string that starts with `p` contains everything `p` contains. */
  lemma {:induction false} ContainsOfPrefix(s: string, p: string, sub: string)
    requires StartsWith(s, p) && Contains(p, sub)
    ensures Contains(s, sub)
    decreases |p|
  {
    if !StartsWith(p, sub) {
      assert s[1..][..|p| - 1] == p[1..];
      ContainsOfPrefix(s[1..], p[1..], sub);
    }
  }

  /** What a suffix contains, the whole contains. */
  lemma {:induction false} ContainsAfter(a: string, b: string, sub: string)
    requires Contains(b, sub)
    ensures Contains(a + b, sub)
    decreases |a|
  {
    if |a| > 0 {
      assert (a + b)[1..] == a[1..] + b;
      ContainsAfter(a[1..], b, sub);
    } else {
      assert a + b == b;
    }
  }

  /** A string concatenated from parts contains each part. */
  lemma {:induction false} ConcatContainsPart(parts: seq<string>, k: int)
    requires 0 <= k < |parts|
    ensures Contains(Concat(parts), parts[k])
    decreases |parts|
  {
    var whole := Concat(parts);
    if k == 0 {
      assert whole[..|parts[0]|] == parts[0];
    } else {
      ConcatContainsPart(parts[1..], k - 1);
      ContainsAfter(parts[0], Concat(parts[1..]), parts[k]);
    }
  }

  /** A string joined from parts contains each part. */
  lemma {:induction false} JoinContainsPart(parts: seq<string>, sep: string, k: int)
    requires 0 <= k < |parts|
    ensures Contains(Join(parts, sep), parts[k])
    decreases |parts|
  {
    var whole := Join(parts, sep);
    if k == 0 {
      assert StartsWith(whole, parts[0]) by {
        if |parts| > 1 {
          assert whole[..|parts[0]|] == parts[0];
        }
      }
    } else {
      JoinContainsPart(parts[1..], sep, k - 1);
      ContainsAfter(parts[0] + sep, Join(parts[1..], sep), parts[k]);
    }
  }

  /** Substring containment is transitive. */
  lemma {:induction false} ContainsTransitive(s: string, mid: string, sub: string)
    requires Contains(s, mid) && Contains(mid, sub)
    ensures Contains(s, sub)
    decreases |s|
  {
    if StartsWith(s, mid) {
      ContainsOfPrefix(s, mid, sub);
    } else {
      ContainsTransitive(s[1..], mid, sub);
    }
  }

  /** Lower-casing a lower-cased string changes nothing, and so does upper-casing first. */
  lemma LowerUpper(s: string)
    ensures Lower(Upper(s)) == Lower(s)
  {
  }

  /** A string that neither starts nor ends with whitespace is its own trim. */
  lemma TrimUnpadded(s: string)
    requires |s| > 0 && !IsSpace(s[0]) && !IsSpace(s[|s| - 1])
    ensures Trim(s) == s
  {
    assert LeadingSpaces(s) == 0;
    assert s[0..|s|] == s;
    assert TrailingSpaces(s) == 0;
  }
}
