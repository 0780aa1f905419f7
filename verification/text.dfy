/**
 * The string operations the C# scripts and the Python conversion scripts rely on:
 * substring search (`Contains`), left-to-right replacement of every non-overlapping
 * occurrence (`Replace` in C#, `str.replace` in Python), decimal rendering with
 * `zfill`, splitting on a separator, `strip`, and '/'-joined paths.
 */
module Text {

  predicate IsPrefix(p: string, s: string) {
    |p| <= |s| && s[..|p|] == p
  }

  /** `s.Contains(p)`: p occurs somewhere in s. */
  predicate Contains(s: string, p: string)
    decreases |s|
  {
    IsPrefix(p, s) || (|s| > 0 && Contains(s[1..], p))
  }

  /** A position where s disagrees with p (or ends first) rules out p as a prefix of s. */
  lemma DisagreementNotPrefix(p: string, s: string, i: nat)
    requires i < |p| && (i >= |s| || s[i] != p[i])
    ensures !IsPrefix(p, s)
  {
    if |p| <= |s| {
      assert s[..|p|][i] == s[i];
    }
  }

  /** A prefix of a stays a prefix of every extension of a. */
  lemma PrefixOfExtension(p: string, a: string, b: string)
    ensures IsPrefix(p, a) ==> IsPrefix(p, a + b)
  {
    if IsPrefix(p, a) {
      assert (a + b)[..|p|] == a[..|p|];
    }
  }

  /** A character of p that never appears in s rules out every occurrence of p in s. */
  lemma {:induction false} MissingCharNotContained(s: string, p: string, c: char)
    requires c in p && c !in s
    ensures !Contains(s, p)
    decreases |s|
  {
    var k :| 0 <= k < |p| && p[k] == c;
    DisagreementNotPrefix(p, s, k);
    if |s| > 0 {
      MissingCharNotContained(s[1..], p, c);
    }
  }

  /** A prefix holding no character equal to p's first one adds no occurrence of p. */
  lemma {:induction false} ContainsSkipsPrefix(a: string, b: string, p: string)
    requires |p| > 0 && p[0] !in a
    ensures Contains(a + b, p) <==> Contains(b, p)
    decreases |a|
  {
    if |a| == 0 {
      assert a + b == b;
    } else {
      var s := a + b;
      assert s[0] == a[0];
      DisagreementNotPrefix(p, s, 0);
      assert s[1..] == a[1..] + b;
      ContainsSkipsPrefix(a[1..], b, p);
    }
  }

  /**
   * `s.Replace(p, r)`: every occurrence of p, scanned left to right without overlap,
   * is replaced by r. The replacement is not rescanned.
   */
  function ReplaceAll(s: string, p: string, r: string): string
    requires |p| > 0
    decreases |s|
  {
    if |s| == 0 then []
    else if IsPrefix(p, s) then r + ReplaceAll(s[|p|..], p, r)
    else [s[0]] + ReplaceAll(s[1..], p, r)
  }

  /** Without an occurrence of p there is nothing to replace. */
  lemma {:induction false} ReplaceAllWithoutOccurrence(s: string, p: string, r: string)
    requires |p| > 0 && !Contains(s, p)
    ensures ReplaceAll(s, p, r) == s
    decreases |s|
  {
    if |s| > 0 {
      ReplaceAllWithoutOccurrence(s[1..], p, r);
      assert [s[0]] + s[1..] == s;
    }
  }

  /** Deleting occurrences never lengthens the string. */
  lemma {:induction false} ReplaceAllDeleting(s: string, p: string)
    requires |p| > 0
    ensures |ReplaceAll(s, p, [])| <= |s|
    decreases |s|
  {
    if |s| > 0 {
      if IsPrefix(p, s) {
        ReplaceAllDeleting(s[|p|..], p);
      } else {
        ReplaceAllDeleting(s[1..], p);
      }
    }
  }

  /** Replacing in a string that opens with p puts r in front. */
  lemma ReplaceAllAtPrefix(p: string, rest: string, r: string)
    requires |p| > 0
    ensures ReplaceAll(p + rest, p, r) == r + ReplaceAll(rest, p, r)
  {
    assert IsPrefix(p, p + rest);
    assert (p + rest)[|p|..] == rest;
  }

  /**
   * A prefix that holds no character equal to p's first one is copied unchanged:
   * no occurrence of p can start inside it.
   */
  lemma {:induction false} ReplaceAllSkipsPrefix(a: string, b: string, p: string, r: string)
    requires |p| > 0 && p[0] !in a
    ensures ReplaceAll(a + b, p, r) == a + ReplaceAll(b, p, r)
    decreases |a|
  {
    if |a| == 0 {
      assert a + b == b;
    } else {
      var s := a + b;
      assert s[0] == a[0];
      DisagreementNotPrefix(p, s, 0);
      assert ReplaceAll(s, p, r) == [a[0]] + ReplaceAll(s[1..], p, r);
      assert s[1..] == a[1..] + b;
      ReplaceAllSkipsPrefix(a[1..], b, p, r);
      var tail := ReplaceAll(b, p, r);
      assert [a[0]] + (a[1..] + tail) == ([a[0]] + a[1..]) + tail;
      assert [a[0]] + a[1..] == a;
    }
  }

  lemma AppendAssociative(x: string, y: string, z: string)
    ensures x + (y + z) == (x + y) + z
  {
  }

  /** An occurrence of p at the front of `a + [sep] + b`, with no separator in p, lies inside a. */
  lemma OccurrenceBeforeSeparator(a: string, sep: char, b: string, p: string)
    requires sep !in p && IsPrefix(p, a + [sep] + b)
    ensures IsPrefix(p, a) && (a + [sep] + b)[|p|..] == a[|p|..] + [sep] + b
  {
    var s := a + [sep] + b;
    assert s[|a|] == sep;
    assert a[..|p|] == s[..|p|];
  }

  /**
   * Replacing in `a + [sep] + b`, where p holds no separator, acts on the two sides
   * separately: no occurrence of p can straddle the separator.
   */
  lemma {:induction false} ReplaceAllAcrossSeparator(a: string, sep: char, b: string, p: string, r: string)
    requires |p| > 0 && sep !in p
    ensures ReplaceAll(a + [sep] + b, p, r) == ReplaceAll(a, p, r) + [sep] + ReplaceAll(b, p, r)
    decreases |a|
  {
    var s := a + [sep] + b;
    var rb := ReplaceAll(b, p, r);
    var tail := [sep] + rb;
    AppendAssociative(ReplaceAll(a, p, r), [sep], rb);
    if |a| == 0 {
      assert s == [sep] + b;
      DisagreementNotPrefix(p, s, 0);
      assert s[1..] == b;
      assert ReplaceAll(a, p, r) == [];
    } else if IsPrefix(p, s) {
      OccurrenceBeforeSeparator(a, sep, b, p);
      var rest := ReplaceAll(a[|p|..], p, r);
      ReplaceAllAcrossSeparator(a[|p|..], sep, b, p, r);
      AppendAssociative(rest, [sep], rb);
      AppendAssociative(r, rest, tail);
    } else {
      assert s == a + ([sep] + b);
      PrefixOfExtension(p, a, [sep] + b);
      assert s[1..] == a[1..] + [sep] + b;
      var rest := ReplaceAll(a[1..], p, r);
      ReplaceAllAcrossSeparator(a[1..], sep, b, p, r);
      AppendAssociative(rest, [sep], rb);
      AppendAssociative([a[0]], rest, tail);
    }
  }

  // ---------------------------------------------------------------------------
  // Decimal digits and zfill

  predicate IsDigit(c: char) { '0' <= c <= '9' }

  predicate AllDigits(s: string) { forall i :: 0 <= i < |s| ==> IsDigit(s[i]) }

  function DigitChar(d: nat): (c: char)
    requires d < 10
    ensures IsDigit(c)
  {
    (48 + d) as char
  }

  /** `str(n)` for a non-negative integer. */
  function NatToString(n: nat): (s: string)
    ensures |s| >= 1 && AllDigits(s)
    decreases n
  {
    if n < 10 then [DigitChar(n)] else NatToString(n / 10) + [DigitChar(n % 10)]
  }

  /** The number a string of decimal digits denotes (most significant digit first). */
  function DigitsValue(s: string): nat
    requires AllDigits(s)
    decreases |s|
  {
    if |s| == 0 then 0
    else DigitsValue(s[..|s| - 1]) * 10 + ((s[|s| - 1] as int) - 48)
  }

  /** `str(n)` reads back as n. */
  lemma {:induction false} NatToStringValue(n: nat)
    ensures DigitsValue(NatToString(n)) == n
    decreases n
  {
    if n >= 10 {
      NatToStringValue(n / 10);
      var s := NatToString(n);
      assert s[..|s| - 1] == NatToString(n / 10);
    }
  }

  function Zeros(k: nat): (z: string)
    ensures |z| == k && AllDigits(z)
    ensures forall i :: 0 <= i < k ==> z[i] == '0'
  {
    seq(k, _ => '0')
  }

  /** Python's `s.zfill(width)` on an unsigned digit string: pad on the left with '0'. */
  function ZFill(s: string, width: nat): (z: string)
    ensures |z| == if |s| >= width then |s| else width
    ensures AllDigits(s) ==> AllDigits(z)
  {
    if |s| >= width then s else Zeros(width - |s|) + s
  }

  /** Leading zeros do not change the value of a digit string. */
  lemma {:induction false} LeadingZerosValue(k: nat, s: string)
    requires AllDigits(s)
    ensures DigitsValue(Zeros(k) + s) == DigitsValue(s)
    decreases |s|
  {
    if |s| == 0 {
      assert Zeros(k) + s == Zeros(k);
      ZerosValue(k);
    } else {
      var t := Zeros(k) + s;
      assert t[..|t| - 1] == Zeros(k) + s[..|s| - 1];
      LeadingZerosValue(k, s[..|s| - 1]);
    }
  }

  lemma {:induction false} ZerosValue(k: nat)
    ensures DigitsValue(Zeros(k)) == 0
    decreases k
  {
    if k > 0 {
      assert Zeros(k)[..k - 1] == Zeros(k - 1);
      ZerosValue(k - 1);
    }
  }

  /** `str(n).zfill(width)` still reads back as n, whatever the width. */
  lemma ZFillValue(n: nat, width: nat)
    ensures AllDigits(ZFill(NatToString(n), width))
    ensures DigitsValue(ZFill(NatToString(n), width)) == n
  {
    NatToStringValue(n);
    var s := NatToString(n);
    if |s| < width {
      LeadingZerosValue(width - |s|, s);
    }
  }

  // ---------------------------------------------------------------------------
  // Splitting and joining

  /** `s.split(sep)`: the fields between separators, always at least one. */
  function Split(s: string, sep: char): (fields: seq<string>)
    ensures |fields| >= 1
    decreases |s|
  {
    if |s| == 0 then [""]
    else
      var rest := Split(s[1..], sep);
      if s[0] == sep then [""] + rest else [[s[0]] + rest[0]] + rest[1..]
  }

  /** `sep.join(parts)`. */
  function Join(parts: seq<string>, sep: char): string
    decreases |parts|
  {
    if |parts| == 0 then ""
    else if |parts| == 1 then parts[0]
    else parts[0] + [sep] + Join(parts[1..], sep)
  }

  lemma {:induction false} SplitField(a: string, sep: char)
    requires sep !in a
    ensures Split(a, sep) == [a]
    decreases |a|
  {
    if |a| > 0 {
      SplitField(a[1..], sep);
      assert [a[0]] + a[1..] == a;
    }
  }

  lemma {:induction false} SplitFieldThenRest(a: string, sep: char, b: string)
    requires sep !in a
    ensures Split(a + [sep] + b, sep) == [a] + Split(b, sep)
    decreases |a|
  {
    var s := a + [sep] + b;
    if |a| == 0 {
      assert s[0] == sep && s[1..] == b;
    } else {
      assert s[0] == a[0] && s[1..] == a[1..] + [sep] + b;
      SplitFieldThenRest(a[1..], sep, b);
      assert [a[0]] + a[1..] == a;
    }
  }

  /** Splitting a join gives the parts back when no part holds the separator. */
  lemma {:induction false} SplitJoin(parts: seq<string>, sep: char)
    requires |parts| >= 1
    requires forall i :: 0 <= i < |parts| ==> sep !in parts[i]
    ensures Split(Join(parts, sep), sep) == parts
    decreases |parts|
  {
    if |parts| == 1 {
      SplitField(parts[0], sep);
    } else {
      SplitJoin(parts[1..], sep);
      SplitFieldThenRest(parts[0], sep, Join(parts[1..], sep));
    }
  }

  /** Python's `s.split(sep)[-1]`: the text after the last separator, or all of s. */
  function LastField(s: string, sep: char): (f: string)
    ensures sep !in f
    ensures |f| <= |s| && f == s[|s| - |f|..]
    decreases |s|
  {
    if |s| == 0 then ""
    else if s[|s| - 1] == sep then ""
    else LastField(s[..|s| - 1], sep) + [s[|s| - 1]]
  }

  lemma {:induction false} LastFieldAfterSeparator(a: string, sep: char, b: string)
    requires sep !in b
    ensures LastField(a + [sep] + b, sep) == b
    decreases |b|
  {
    var s := a + [sep] + b;
    if |b| > 0 {
      assert s[..|s| - 1] == a + [sep] + b[..|b| - 1];
      LastFieldAfterSeparator(a, sep, b[..|b| - 1]);
      assert b[..|b| - 1] + [b[|b| - 1]] == b;
    }
  }

  /** Joining one more part appends a separator and the part. */
  lemma {:induction false} JoinSnoc(parts: seq<string>, x: string, sep: char)
    requires |parts| >= 1
    ensures Join(parts + [x], sep) == Join(parts, sep) + [sep] + x
    decreases |parts|
  {
    if |parts| == 1 {
      assert parts + [x] == [parts[0], x];
      assert Join([x], sep) == x;
    } else {
      assert (parts + [x])[1..] == parts[1..] + [x];
      JoinSnoc(parts[1..], x, sep);
      AppendAssociative(parts[0] + [sep], Join(parts[1..], sep), [sep] + x);
      AppendAssociative(Join(parts[1..], sep), [sep], x);
      AppendAssociative(parts[0] + [sep] + Join(parts[1..], sep), [sep], x);
    }
  }

  /** Each part with every occurrence of p replaced by r. */
  function ReplaceInParts(parts: seq<string>, p: string, r: string): (q: seq<string>)
    requires |p| > 0
    ensures |q| == |parts|
    decreases |parts|
  {
    if |parts| == 0 then [] else [ReplaceAll(parts[0], p, r)] + ReplaceInParts(parts[1..], p, r)
  }

  lemma {:induction false} ReplaceInPartsAt(parts: seq<string>, p: string, r: string, i: nat)
    requires |p| > 0 && i < |parts|
    ensures ReplaceInParts(parts, p, r)[i] == ReplaceAll(parts[i], p, r)
    decreases |parts|
  {
    if i > 0 {
      ReplaceInPartsAt(parts[1..], p, r, i - 1);
    }
  }

  /** Replacing a pattern without the separator in a joined path acts part by part. */
  lemma {:induction false} ReplaceAllJoin(parts: seq<string>, sep: char, p: string, r: string)
    requires |p| > 0 && sep !in p
    ensures ReplaceAll(Join(parts, sep), p, r) == Join(ReplaceInParts(parts, p, r), sep)
    decreases |parts|
  {
    if |parts| == 0 {
    } else if |parts| == 1 {
    } else {
      ReplaceAllJoin(parts[1..], sep, p, r);
      ReplaceAllAcrossSeparator(parts[0], sep, Join(parts[1..], sep), p, r);
      var q := ReplaceInParts(parts, p, r);
      assert q[1..] == ReplaceInParts(parts[1..], p, r);
    }
  }

  /** A pattern at the front of a string that holds no further occurrence. */
  lemma ReplaceLeadingOnly(p: string, rest: string, r: string)
    requires |p| > 0 && p[0] !in rest
    ensures ReplaceAll(p + rest, p, r) == r + rest
  {
    ReplaceAllAtPrefix(p, rest, r);
    MissingCharNotContained(rest, p, p[0]);
    ReplaceAllWithoutOccurrence(rest, p, r);
  }

  /** A string that is exactly the pattern is replaced whole. */
  lemma ReplaceAllWhole(p: string, r: string)
    requires |p| > 0
    ensures ReplaceAll(p, p, r) == r
  {
    ReplaceAllAtPrefix(p, "", r);
    assert p + "" == p;
    assert r + "" == r;
  }

  // ---------------------------------------------------------------------------
  // Python's str.strip

  /**
   * The characters `str.isspace` accepts: the ASCII blanks and the separators U+001C to
   * U+001F, U+0085, U+00A0, and the Unicode space and line/paragraph separators.
   */
  predicate IsSpace(c: char) {
    ('\U{0009}' <= c <= '\U{000D}') || ('\U{001C}' <= c <= '\U{0020}') || c == '\U{0085}' || c == '\U{00A0}' ||
    c == '\U{1680}' || ('\U{2000}' <= c <= '\U{200A}') || c == '\U{2028}' || c == '\U{2029}' ||
    c == '\U{202F}' || c == '\U{205F}' || c == '\U{3000}'
  }

  function StripLeft(s: string): (t: string)
    ensures |t| <= |s| && t == s[|s| - |t|..]
    ensures |t| > 0 ==> !IsSpace(t[0])
    decreases |s|
  {
    if |s| > 0 && IsSpace(s[0]) then StripLeft(s[1..]) else s
  }

  function StripRight(s: string): (t: string)
    ensures |t| <= |s| && t == s[..|t|]
    ensures |t| > 0 ==> !IsSpace(t[|t| - 1])
    decreases |s|
  {
    if |s| > 0 && IsSpace(s[|s| - 1]) then StripRight(s[..|s| - 1]) else s
  }

  /** `s.strip()`: no leading or trailing whitespace character is left. */
  function Strip(s: string): (t: string)
    ensures |t| > 0 ==> !IsSpace(t[0]) && !IsSpace(t[|t| - 1])
  {
    StripRight(StripLeft(s))
  }

  /** A string with no leading or trailing blank is left as it is by `strip`. */
  lemma StripTrimmed(s: string)
    requires |s| > 0 ==> !IsSpace(s[0]) && !IsSpace(s[|s| - 1])
    ensures Strip(s) == s
  {
  }

  /** Stripping removes exactly the whitespace around a text that starts and ends with a non-blank. */
  lemma StripPadded(pre: string, core: string, post: string)
    requires forall k :: 0 <= k < |pre| ==> IsSpace(pre[k])
    requires forall k :: 0 <= k < |post| ==> IsSpace(post[k])
    requires |core| > 0 && !IsSpace(core[0]) && !IsSpace(core[|core| - 1])
    ensures Strip(pre + core + post) == core
  {
    assert pre + core + post == pre + (core + post);
    StripLeftPadded(pre, core + post);
    StripRightPadded(core, post);
  }

  lemma {:induction false} StripLeftPadded(pre: string, rest: string)
    requires forall k :: 0 <= k < |pre| ==> IsSpace(pre[k])
    requires |rest| > 0 && !IsSpace(rest[0])
    ensures StripLeft(pre + rest) == rest
    decreases |pre|
  {
    if |pre| > 0 {
      assert (pre + rest)[1..] == pre[1..] + rest;
      StripLeftPadded(pre[1..], rest);
    } else {
      assert pre + rest == rest;
    }
  }

  lemma {:induction false} StripRightPadded(rest: string, post: string)
    requires forall k :: 0 <= k < |post| ==> IsSpace(post[k])
    requires |rest| > 0 && !IsSpace(rest[|rest| - 1])
    ensures StripRight(rest + post) == rest
    decreases |post|
  {
    if |post| > 0 {
      assert (rest + post)[..|rest + post| - 1] == rest + post[..|post| - 1];
      StripRightPadded(rest, post[..|post| - 1]);
    } else {
      assert rest + post == rest;
    }
  }
}
