/**
 * The JavaScript built-ins the core relies on, stated exactly enough for its
 * properties: string order and the default `Array.prototype.sort`,
 * `Array.prototype.join`, `String.prototype.trim` and `toLowerCase`, the
 * UTF-16 `length` of a string, `parseInt` without a radix, `slice(0, end)`
 * and the rendering of an integer in a template string.
 */
module JsBuiltins {
  import opened Wrappers

  // ---------------------------------------------------------------------
  // String order: `a < b` on strings and the default sort comparator.
  // ---------------------------------------------------------------------

  /** Lexicographic order: a proper prefix is smaller, otherwise the first
      differing character decides. */
  predicate LexLess(a: string, b: string)
    decreases |a|
  {
    if |a| == 0 then |b| > 0
    else if |b| == 0 then false
    else if a[0] != b[0] then a[0] < b[0]
    else LexLess(a[1..], b[1..])
  }

  predicate LexLe(a: string, b: string) {
    a == b || LexLess(a, b)
  }

  lemma {:induction false} LexLessIrreflexive(a: string)
    ensures !LexLess(a, a)
  {
    if |a| > 0 {
      LexLessIrreflexive(a[1..]);
    }
  }

  lemma {:induction false} LexLessTransitive(a: string, b: string, c: string)
    requires LexLess(a, b) && LexLess(b, c)
    ensures LexLess(a, c)
    decreases |a|
  {
    if |a| > 0 && a[0] == b[0] && b[0] == c[0] {
      LexLessTransitive(a[1..], b[1..], c[1..]);
    }
  }

  /** Any two strings are equal or ordered one way round. */
  lemma {:induction false} LexLessTotal(a: string, b: string)
    ensures a == b || LexLess(a, b) || LexLess(b, a)
    decreases |a|
  {
    if |a| > 0 && |b| > 0 && a[0] == b[0] {
      LexLessTotal(a[1..], b[1..]);
      if a[1..] == b[1..] {
        assert a == [a[0]] + a[1..];
        assert b == [b[0]] + b[1..];
      }
    }
  }

  lemma LexLessAsymmetric(a: string, b: string)
    requires LexLess(a, b)
    ensures !LexLess(b, a)
  {
    if LexLess(b, a) {
      LexLessTransitive(a, b, a);
      LexLessIrreflexive(a);
    }
  }

  lemma LexLeTransitive(a: string, b: string, c: string)
    requires LexLe(a, b) && LexLe(b, c)
    ensures LexLe(a, c)
  {
    if a != b && b != c {
      LexLessTransitive(a, b, c);
    }
  }

  lemma LexLeAntisymmetric(a: string, b: string)
    requires LexLe(a, b) && LexLe(b, a)
    ensures a == b
  {
    if a != b {
      LexLessAsymmetric(a, b);
    }
  }

  /** Comparing two concatenations whose first parts have the same length:
      the first parts decide unless they are equal. Fixed-width fields
      (such as the parts of a date key) are compared this way. */
  lemma {:induction false} LexLessConcat(p: string, q: string, p': string, q': string)
    requires |p| == |p'|
    ensures LexLess(p + q, p' + q') <==> LexLess(p, p') || (p == p' && LexLess(q, q'))
    decreases |p|
  {
    if |p| == 0 {
      assert p + q == q && p' + q' == q';
    } else {
      assert (p + q)[0] == p[0] && (p' + q')[0] == p'[0];
      assert (p + q)[1..] == p[1..] + q;
      assert (p' + q')[1..] == p'[1..] + q';
      LexLessConcat(p[1..], q, p'[1..], q');
      if p[0] == p'[0] && p[1..] == p'[1..] {
        assert p == [p[0]] + p[1..] && p' == [p'[0]] + p'[1..];
      }
    }
  }

  // ---------------------------------------------------------------------
  // The default `Array.prototype.sort` on strings.
  // ---------------------------------------------------------------------

  predicate Sorted(s: seq<string>) {
    forall i, j :: 0 <= i < j < |s| ==> LexLe(s[i], s[j])
  }

  /** Places `x` in front of the first element it does not exceed. */
  function Insert(x: string, s: seq<string>): seq<string> {
    if s == [] then [x]
    else if LexLe(x, s[0]) then [x] + s
    else [s[0]] + Insert(x, s[1..])
  }

  lemma {:induction false} InsertPermutes(x: string, s: seq<string>)
    ensures multiset(Insert(x, s)) == multiset(s) + multiset{x}
  {
    if s != [] && !LexLe(x, s[0]) {
      InsertPermutes(x, s[1..]);
      assert s == [s[0]] + s[1..];
    }
  }

  /** A sorted sequence stays sorted behind a lower bound of all its elements. */
  lemma SortedCons(lo: string, t: seq<string>)
    requires Sorted(t) && forall j :: 0 <= j < |t| ==> LexLe(lo, t[j])
    ensures Sorted([lo] + t)
  {
    var r := [lo] + t;
    forall i, j | 0 <= i < j < |r|
      ensures LexLe(r[i], r[j])
    {
      if i > 0 {
        assert r[i] == t[i - 1] && r[j] == t[j - 1];
      }
    }
  }

  lemma {:induction false} InsertSorted(x: string, s: seq<string>)
    requires Sorted(s)
    ensures Sorted(Insert(x, s))
  {
    if s == [] {
    } else if LexLe(x, s[0]) {
      forall j | 0 <= j < |s|
        ensures LexLe(x, s[j])
      {
        if j > 0 {
          LexLeTransitive(x, s[0], s[j]);
        }
      }
      SortedCons(x, s);
    } else {
      LexLessTotal(x, s[0]);
      var t := Insert(x, s[1..]);
      InsertSorted(x, s[1..]);
      InsertPermutes(x, s[1..]);
      assert forall k :: 0 <= k < |s[1..]| ==> LexLe(s[0], s[1..][k]) by {
        forall k | 0 <= k < |s[1..]|
          ensures LexLe(s[0], s[1..][k])
        {
          assert s[1..][k] == s[k + 1];
        }
      }
      LowerBoundKept(s[0], x, s[1..], t);
      SortedCons(s[0], t);
    }
  }

  /** A lower bound of `x` and of every element of `u` bounds every element
      of a rearrangement `t` of them. */
  lemma LowerBoundKept(lo: string, x: string, u: seq<string>, t: seq<string>)
    requires LexLe(lo, x) && forall k :: 0 <= k < |u| ==> LexLe(lo, u[k])
    requires multiset(t) == multiset(u) + multiset{x}
    ensures forall j :: 0 <= j < |t| ==> LexLe(lo, t[j])
  {
    forall j | 0 <= j < |t|
      ensures LexLe(lo, t[j])
    {
      assert t[j] in multiset(t);
      if t[j] != x {
        assert t[j] in multiset(u);
        var k :| 0 <= k < |u| && u[k] == t[j];
      }
    }
  }

  /** `keys.sort()`: the strings in ascending order, each as often as before. */
  function SortStrings(s: seq<string>): (r: seq<string>)
    ensures Sorted(r)
    ensures multiset(r) == multiset(s)
  {
    if s == [] then []
    else
      var rest := SortStrings(s[1..]);
      InsertSorted(s[0], rest);
      InsertPermutes(s[0], rest);
      assert s == [s[0]] + s[1..];
      Insert(s[0], rest)
  }

  lemma SortedHeadIsLeast(a: seq<string>, x: string)
    requires Sorted(a) && x in a
    ensures LexLe(a[0], x)
  {
    var i :| 0 <= i < |a| && a[i] == x;
    if i > 0 {
      assert LexLe(a[0], a[i]);
    }
  }

  lemma SortedTail(a: seq<string>)
    requires Sorted(a) && a != []
    ensures Sorted(a[1..])
  {
    forall i, j | 0 <= i < j < |a[1..]|
      ensures LexLe(a[1..][i], a[1..][j])
    {
      assert a[1..][i] == a[i + 1] && a[1..][j] == a[j + 1];
    }
  }

  /** A sorted sequence is determined by its multiset: this is why sorting
      makes the order in which the strings arrived irrelevant. */
  lemma {:induction false} SortedUnique(a: seq<string>, b: seq<string>)
    requires Sorted(a) && Sorted(b)
    requires multiset(a) == multiset(b)
    ensures a == b
  {
    if a == [] {
      assert |multiset(b)| == 0;
    } else {
      SortedHeadsEqual(a, b);
      MultisetTail(a);
      MultisetTail(b);
      SortedTail(a);
      SortedTail(b);
      SortedUnique(a[1..], b[1..]);
      assert a == [a[0]] + a[1..] && b == [b[0]] + b[1..];
    }
  }

  lemma SortedHeadsEqual(a: seq<string>, b: seq<string>)
    requires Sorted(a) && Sorted(b) && a != []
    requires multiset(a) == multiset(b)
    ensures b != [] && a[0] == b[0]
  {
    assert |multiset(b)| == |multiset(a)| > 0;
    assert a[0] in multiset(b) && b[0] in multiset(a);
    SortedHeadIsLeast(b, a[0]);
    SortedHeadIsLeast(a, b[0]);
    LexLeAntisymmetric(a[0], b[0]);
  }

  lemma MultisetTail(a: seq<string>)
    requires a != []
    ensures multiset(a[1..]) == multiset(a) - multiset{a[0]}
  {
    assert a == [a[0]] + a[1..];
  }

  // ---------------------------------------------------------------------
  // `Array.prototype.join`.
  // ---------------------------------------------------------------------

  function Join(sep: string, parts: seq<string>): string {
    if |parts| == 0 then ""
    else if |parts| == 1 then parts[0]
    else parts[0] + sep + Join(sep, parts[1..])
  }

  // ---------------------------------------------------------------------
  // `String.prototype.trim`, `toLowerCase` and `length`.
  // ---------------------------------------------------------------------

  /** ECMAScript WhiteSpace and LineTerminator code points: what `trim` and
      `parseInt` skip. */
  predicate IsJsSpace(c: char) {
    var n := c as int;
    n == 0x09 || n == 0x0A || n == 0x0B || n == 0x0C || n == 0x0D || n == 0x20
    || n == 0xA0 || n == 0x1680 || (0x2000 <= n <= 0x200A) || n == 0x2028
    || n == 0x2029 || n == 0x202F || n == 0x205F || n == 0x3000 || n == 0xFEFF
  }

  function TrimStart(s: string): string {
    if |s| > 0 && IsJsSpace(s[0]) then TrimStart(s[1..]) else s
  }

  function TrimEnd(s: string): string {
    if |s| > 0 && IsJsSpace(s[|s| - 1]) then TrimEnd(s[..|s| - 1]) else s
  }

  function Trim(s: string): string {
    TrimEnd(TrimStart(s))
  }

  predicate AllSpace(s: string) {
    forall i :: 0 <= i < |s| ==> IsJsSpace(s[i])
  }

  lemma {:induction false} TrimStartEmpty(s: string)
    ensures TrimStart(s) == [] <==> AllSpace(s)
  {
    if |s| > 0 && IsJsSpace(s[0]) {
      TrimStartEmpty(s[1..]);
      assert AllSpace(s) <==> AllSpace(s[1..]) by {
        if AllSpace(s[1..]) {
          forall i | 0 <= i < |s| ensures IsJsSpace(s[i]) {
            if i > 0 { assert s[i] == s[1..][i - 1]; }
          }
        }
      }
    }
  }

  lemma {:induction false} TrimEndOfNonEmpty(s: string)
    requires |s| > 0 && !IsJsSpace(s[0])
    ensures |TrimEnd(s)| > 0
    decreases |s|
  {
    if IsJsSpace(s[|s| - 1]) {
      TrimEndOfNonEmpty(s[..|s| - 1]);
    }
  }

  /** `!s.trim()`: the trimmed string is empty exactly when every character
      of `s` is white space (in particular when `s` is empty). */
  lemma TrimEmptyIffAllSpace(s: string)
    ensures Trim(s) == [] <==> AllSpace(s)
  {
    TrimStartEmpty(s);
    var t := TrimStart(s);
    if t != [] {
      TrimStartNotSpace(s);
      TrimEndOfNonEmpty(t);
    }
  }

  lemma {:induction false} TrimStartNotSpace(s: string)
    requires TrimStart(s) != []
    ensures !IsJsSpace(TrimStart(s)[0])
  {
    if |s| > 0 && IsJsSpace(s[0]) {
      TrimStartNotSpace(s[1..]);
    }
  }

  lemma {:induction false} TrimStartSkipsSpace(w: string, s: string)
    requires AllSpace(w)
    ensures TrimStart(w + s) == TrimStart(s)
  {
    if w == [] {
      assert w + s == s;
    } else {
      assert (w + s)[0] == w[0] && (w + s)[1..] == w[1..] + s;
      TrimStartSkipsSpace(w[1..], s);
    }
  }

  lemma {:induction false} TrimStartKeepsTail(s: string, w: string)
    requires !AllSpace(s)
    ensures TrimStart(s + w) == TrimStart(s) + w
  {
    assert s != [];
    assert (s + w)[0] == s[0] && (s + w)[1..] == s[1..] + w;
    if IsJsSpace(s[0]) {
      var i :| 0 <= i < |s| && !IsJsSpace(s[i]);
      assert s[1..][i - 1] == s[i];
      TrimStartKeepsTail(s[1..], w);
    }
  }

  lemma {:induction false} TrimEndSkipsSpace(s: string, w: string)
    requires AllSpace(w)
    ensures TrimEnd(s + w) == TrimEnd(s)
    decreases |w|
  {
    if w == [] {
      assert s + w == s;
    } else {
      var v := w[..|w| - 1];
      assert (s + w)[|s + w| - 1] == w[|w| - 1];
      assert (s + w)[..|s + w| - 1] == s + v;
      TrimEndSkipsSpace(s, v);
    }
  }

  /** White space around a string does not survive `trim`. */
  lemma TrimIgnoresPadding(w1: string, s: string, w2: string)
    requires AllSpace(w1) && AllSpace(w2)
    ensures Trim(w1 + s + w2) == Trim(s)
  {
    assert w1 + s + w2 == w1 + (s + w2);
    TrimStartSkipsSpace(w1, s + w2);
    if AllSpace(s) {
      assert AllSpace(s + w2);
      TrimStartEmpty(s + w2);
      TrimStartEmpty(s);
    } else {
      TrimStartKeepsTail(s, w2);
      TrimEndSkipsSpace(TrimStart(s), w2);
    }
  }

  /** `toLowerCase` on the ASCII letters; every other character is kept. */
  function LowerChar(c: char): char {
    if 'A' <= c <= 'Z' then (c as int + 32) as char else c
  }

  function ToLowerCase(s: string): (r: string)
    ensures |r| == |s|
    ensures forall i :: 0 <= i < |s| ==> r[i] == LowerChar(s[i])
  {
    seq(|s|, i requires 0 <= i < |s| => LowerChar(s[i]))
  }

  /** Lower-casing works character by character and leaves white space alone. */
  lemma LowerCaseSpacePadding(w1: string, s: string, w2: string)
    requires AllSpace(w1) && AllSpace(w2)
    ensures ToLowerCase(w1 + s + w2) == w1 + ToLowerCase(s) + w2
  {
    var t := w1 + s + w2;
    forall i | 0 <= i < |t| ensures ToLowerCase(t)[i] == (w1 + ToLowerCase(s) + w2)[i] {
      if i < |w1| {
        assert t[i] == w1[i];
      } else if i < |w1| + |s| {
        assert t[i] == s[i - |w1|];
      } else {
        assert t[i] == w2[i - |w1| - |s|];
      }
    }
  }

  /** `s.length`: UTF-16 code units, so a character outside the Basic
      Multilingual Plane counts twice. */
  function Utf16Length(s: string): (n: nat)
    ensures |s| <= n <= 2 * |s|
  {
    if s == [] then 0
    else (if s[0] as int > 0xFFFF then 2 else 1) + Utf16Length(s[1..])
  }

  // ---------------------------------------------------------------------
  // Integers: `parseInt(s)` with no radix, and `${n}`.
  // ---------------------------------------------------------------------

  /** The value of a digit in radixes up to 36, or 36 for a non-digit. */
  function DigitValue(c: char): (v: nat)
    ensures v <= 36
  {
    if '0' <= c <= '9' then c as int - '0' as int
    else if 'a' <= c <= 'z' then c as int - 'a' as int + 10
    else if 'A' <= c <= 'Z' then c as int - 'A' as int + 10
    else 36
  }

  /** The longest prefix of `s` made of digits of the radix. */
  function DigitPrefix(s: string, radix: nat): (z: string)
    ensures |z| <= |s| && z == s[..|z|]
    ensures forall i :: 0 <= i < |z| ==> DigitValue(z[i]) < radix
    ensures |z| < |s| ==> DigitValue(s[|z|]) >= radix
  {
    if s == [] || DigitValue(s[0]) >= radix then []
    else [s[0]] + DigitPrefix(s[1..], radix)
  }

  /** The value of a digit string, most significant digit first. */
  function DigitsValue(z: string, radix: nat): nat {
    if z == [] then 0
    else DigitsValue(z[..|z| - 1], radix) * radix + DigitValue(z[|z| - 1])
  }

  /** The digits after the sign: a `0x` or `0X` prefix switches to radix
      16, then the longest run of digits is read; `None` when there is none. */
  function ParseMagnitude(u: string): Option<nat> {
    var hex := |u| >= 2 && u[0] == '0' && (u[1] == 'x' || u[1] == 'X');
    var radix := if hex then 16 else 10;
    var z := DigitPrefix(if hex then u[2..] else u, radix);
    if z == [] then None else Some(DigitsValue(z, radix))
  }

  /** `parseInt(s)`: skip leading white space, read an optional sign, then
      the magnitude; `None` stands for NaN (no digit at all). `-0` reads as 0. */
  function ParseInt(s: string): Option<int> {
    var t := TrimStart(s);
    var negative := |t| > 0 && t[0] == '-';
    var u := if |t| > 0 && (t[0] == '-' || t[0] == '+') then t[1..] else t;
    match ParseMagnitude(u)
    case None => None
    case Some(m) => if negative then Some(-(m as int)) else Some(m as int)
  }

  function DigitChar(d: nat): char
    requires d < 10
  {
    ('0' as int + d) as char
  }

  function NatString(n: nat): (s: string)
    ensures |s| > 0
    ensures forall i :: 0 <= i < |s| ==> DigitValue(s[i]) < 10
  {
    if n < 10 then [DigitChar(n)] else NatString(n / 10) + [DigitChar(n % 10)]
  }

  /** `${n}` for an integer `n`. */
  function DecimalString(n: int): string {
    if n < 0 then "-" + NatString(-n) else NatString(n)
  }

  lemma {:induction false} NatStringValue(n: nat)
    ensures DigitsValue(NatString(n), 10) == n
  {
    if n >= 10 {
      NatStringValue(n / 10);
      var s := NatString(n);
      assert s[..|s| - 1] == NatString(n / 10);
    }
  }

  lemma DigitPrefixOfDigits(z: string, radix: nat)
    requires forall i :: 0 <= i < |z| ==> DigitValue(z[i]) < radix
    ensures DigitPrefix(z, radix) == z
  {
  }

  lemma ParseMagnitudeOfDigits(digits: string)
    requires |digits| > 0
    requires forall i :: 0 <= i < |digits| ==> DigitValue(digits[i]) < 10
    requires |digits| >= 2 ==> digits[0] != '0'
    ensures ParseMagnitude(digits) == Some(DigitsValue(digits, 10))
  {
    DigitPrefixOfDigits(digits, 10);
    if |digits| >= 2 {
      assert DigitValue(digits[1]) < 10;
    }
  }

  /** Text starting with a digit parses as its magnitude. */
  lemma ParseIntUnsigned(u: string, v: nat)
    requires |u| > 0 && '0' <= u[0] <= '9' && ParseMagnitude(u) == Some(v)
    ensures ParseInt(u) == Some(v as int)
  {
    TrimStartAtNonSpace(u);
  }

  /** A minus sign before such text negates it. */
  lemma ParseIntNegative(u: string, v: nat)
    requires ParseMagnitude(u) == Some(v)
    ensures ParseInt("-" + u) == Some(-(v as int))
  {
    var s := "-" + u;
    assert s[0] == '-';
    TrimStartAtNonSpace(s);
    assert s[1..] == u;
  }

  lemma TrimStartAtNonSpace(s: string)
    requires |s| > 0 && !IsJsSpace(s[0])
    ensures TrimStart(s) == s
  {
  }

  /** `parseInt` reads back what `${n}` wrote. */
  lemma ParseIntDecimalString(n: int)
    ensures ParseInt(DecimalString(n)) == Some(n)
  {
    var m: nat := if n < 0 then -n else n;
    var digits := NatString(m);
    NatStringValue(m);
    if m >= 10 {
      NatStringLeadingDigit(m);
    }
    ParseMagnitudeOfDigits(digits);
    if n < 0 {
      ParseIntNegative(digits, m);
    } else {
      assert DigitValue(digits[0]) < 10;
      ParseIntUnsigned(digits, m);
    }
  }

  lemma {:induction false} NatStringLeadingDigit(n: nat)
    requires n >= 10
    ensures NatString(n)[0] != '0'
  {
    if n / 10 >= 10 {
      NatStringLeadingDigit(n / 10);
    }
  }

  // ---------------------------------------------------------------------
  // `a.slice(0, end)` where `end` is a Number that may be NaN.
  // ---------------------------------------------------------------------

  /** `None` stands for NaN, which `slice` reads as 0; a negative end counts
      back from the length; an end past the length stops at the length. */
  function SliceTo<T>(s: seq<T>, end: Option<int>): (r: seq<T>)
    ensures |r| <= |s| && r == s[..|r|]
    ensures end.None? ==> r == []
    ensures end.Some? && end.value >= 0 ==> |r| == if end.value < |s| then end.value else |s|
    ensures end.Some? && end.value < 0 ==> |r| == if |s| + end.value < 0 then 0 else |s| + end.value
  {
    var e := if end.None? then 0 else end.value;
    var k := if e < 0 then (if |s| + e < 0 then 0 else |s| + e)
             else (if e < |s| then e else |s|);
    s[..k]
  }
}
