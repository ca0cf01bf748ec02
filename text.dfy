// String rules of the JavaScript and Python runtimes that the source relies on:
// ASCII case mapping, whitespace classes and trimming, split/join, decimal
// printing, parseInt, Array.prototype.slice and String.prototype.length.
module Text {
  import opened Common

  // ---------------------------------------------------------------- case

  function LowerChar(c: char): char
  {
    if 'A' <= c <= 'Z' then (c as int + 32) as char else c
  }

  function UpperChar(c: char): char
  {
    if 'a' <= c <= 'z' then (c as int - 32) as char else c
  }

  /** toLowerCase on ASCII letters; other characters are kept. */
  function ToLower(s: string): (r: string)
    ensures |r| == |s|
    ensures forall i :: 0 <= i < |s| ==> r[i] == LowerChar(s[i])
  {
    seq(|s|, i requires 0 <= i < |s| => LowerChar(s[i]))
  }

  /** toUpperCase on ASCII letters; other characters are kept. */
  function ToUpper(s: string): (r: string)
    ensures |r| == |s|
    ensures forall i :: 0 <= i < |s| ==> r[i] == UpperChar(s[i])
  {
    seq(|s|, i requires 0 <= i < |s| => UpperChar(s[i]))
  }

  lemma ToLowerIdempotent(s: string)
    ensures ToLower(ToLower(s)) == ToLower(s)
  {
  }

  lemma ToLowerConcat(a: string, b: string)
    ensures ToLower(a + b) == ToLower(a) + ToLower(b)
  {
  }

  // ---------------------------------------------------------------- whitespace

  /** The characters of the ECMAScript WhiteSpace and LineTerminator productions (regex `\s`, trim). */
  predicate IsJsSpace(c: char)
  {
    ('\t' <= c <= '\r') || c == ' ' || c == '\U{00A0}' || c == '\U{1680}'
    || ('\U{2000}' <= c <= '\U{200A}') || c == '\U{2028}' || c == '\U{2029}'
    || c == '\U{202F}' || c == '\U{205F}' || c == '\U{3000}' || c == '\U{FEFF}'
  }

  /** The characters for which Python's str.isspace() holds (the set str.strip() removes). */
  predicate IsPySpace(c: char)
  {
    ('\t' <= c <= '\r') || ('\U{001C}' <= c <= ' ') || c == '\U{0085}' || c == '\U{00A0}'
    || c == '\U{1680}' || ('\U{2000}' <= c <= '\U{200A}') || c == '\U{2028}' || c == '\U{2029}'
    || c == '\U{202F}' || c == '\U{205F}' || c == '\U{3000}'
  }

  /** The number of leading characters of `s` satisfying `sp`. */
  function LeadingCount(s: string, sp: char -> bool): (n: nat)
    ensures n <= |s|
    ensures forall i :: 0 <= i < n ==> sp(s[i])
    ensures n < |s| ==> !sp(s[n])
  {
    if |s| > 0 && sp(s[0]) then
      var m := LeadingCount(s[1..], sp);
      assert forall i :: 1 <= i < m + 1 ==> s[i] == s[1..][i - 1];
      1 + m
    else 0
  }

  /** The number of trailing characters of `s` satisfying `sp`. */
  function TrailingCount(s: string, sp: char -> bool): (n: nat)
    ensures n <= |s|
    ensures forall i :: |s| - n <= i < |s| ==> sp(s[i])
    ensures n < |s| ==> !sp(s[|s| - n - 1])
  {
    if |s| > 0 && sp(s[|s| - 1]) then
      var m := TrailingCount(s[..|s| - 1], sp);
      assert forall i :: |s| - 1 - m <= i < |s| - 1 ==> s[i] == s[..|s| - 1][i];
      1 + m
    else 0
  }

  /** Removes the leading characters satisfying `sp`. */
  function TrimStart(s: string, sp: char -> bool): string
  {
    s[LeadingCount(s, sp)..]
  }

  /** Removes the trailing characters satisfying `sp`. */
  function TrimEnd(s: string, sp: char -> bool): string
  {
    s[..|s| - TrailingCount(s, sp)]
  }

  /** String.prototype.trim. */
  function JsTrim(s: string): string
  {
    TrimEnd(TrimStart(s, IsJsSpace), IsJsSpace)
  }

  /** Python's str.strip() with no argument. */
  function PyStrip(s: string): string
  {
    TrimEnd(TrimStart(s, IsPySpace), IsPySpace)
  }

  /** A string is blank for JavaScript's `!s.trim()` exactly when it is all whitespace. */
  lemma {:induction false} JsTrimEmptyIffBlank(s: string)
    ensures JsTrim(s) == [] <==> forall i :: 0 <= i < |s| ==> IsJsSpace(s[i])
  {
    var n := LeadingCount(s, IsJsSpace);
    var t := s[n..];
    if n < |s| {
      assert !IsJsSpace(t[0]);
      var m := TrailingCount(t, IsJsSpace);
      assert m < |t|;
      assert !(forall i :: 0 <= i < |s| ==> IsJsSpace(s[i])) by {
        assert !IsJsSpace(s[n]);
      }
    }
  }

  /** The regex replace `/\s+/g` with "_": every maximal run of whitespace becomes one '_'. */
  function CollapseSpaces(s: string): (r: string)
    ensures forall i :: 0 <= i < |r| ==> !IsJsSpace(r[i])
    ensures |r| <= |s|
  {
    if |s| == 0 then []
    else if IsJsSpace(s[0]) then ['_'] + CollapseSpaces(TrimStart(s, IsJsSpace))
    else [s[0]] + CollapseSpaces(s[1..])
  }

  /** With no whitespace in the input the `\s+` replace changes nothing. */
  lemma {:induction false} CollapseSpacesNoop(s: string)
    requires forall i :: 0 <= i < |s| ==> !IsJsSpace(s[i])
    ensures CollapseSpaces(s) == s
  {
    if |s| > 0 {
      CollapseSpacesNoop(s[1..]);
    }
  }

  // ---------------------------------------------------------------- prefixes

  predicate StartsWith(s: string, p: string)
  {
    |p| <= |s| && s[..|p|] == p
  }

  predicate EndsWith(s: string, p: string)
  {
    |p| <= |s| && s[|s| - |p|..] == p
  }

  /** String.prototype.includes: `q` occurs as a contiguous piece of `s`. */
  predicate Includes(s: string, q: string)
  {
    exists i | 0 <= i <= |s| - |q| :: OccursAt(s, q, i)
  }

  predicate OccursAt(s: string, q: string, i: int)
  {
    0 <= i <= |s| - |q| && s[i..i + |q|] == q
  }

  /** `s.toLowerCase().includes(q.toLowerCase())`. */
  predicate IncludesIgnoringCase(s: string, q: string)
  {
    Includes(ToLower(s), ToLower(q))
  }

  lemma EveryStringIncludesEmpty(s: string)
    ensures IncludesIgnoringCase(s, "")
  {
    assert OccursAt(ToLower(s), ToLower(""), 0);
  }

  lemma IncludesItself(s: string)
    ensures IncludesIgnoringCase(s, s)
  {
    assert OccursAt(ToLower(s), ToLower(s), 0);
  }

  // ---------------------------------------------------------------- split and join

  /** The prefix of `s` before the first `c`. */
  function TakeUntil(s: string, c: char): (r: string)
    ensures |r| <= |s| && r == s[..|r|]
    ensures c !in r
    ensures |r| < |s| ==> s[|r|] == c
  {
    if |s| == 0 || s[0] == c then [] else [s[0]] + TakeUntil(s[1..], c)
  }

  /** String.prototype.split with a one-character separator. */
  function Split(s: string, sep: char): (parts: seq<string>)
    ensures |parts| >= 1
    ensures forall i :: 0 <= i < |parts| ==> sep !in parts[i]
  {
    if |s| == 0 then [""]
    else
      var rest := Split(s[1..], sep);
      if s[0] == sep then [""] + rest else [[s[0]] + rest[0]] + rest[1..]
  }

  /** Array.prototype.join with a one-character separator. */
  function Join(parts: seq<string>, sep: char): string
    requires |parts| >= 1
  {
    if |parts| == 1 then parts[0] else parts[0] + [sep] + Join(parts[1..], sep)
  }

  /** Joining the pieces of a split gives the original string back. */
  lemma {:induction false} JoinSplit(s: string, sep: char)
    ensures Join(Split(s, sep), sep) == s
  {
    if |s| > 0 {
      var rest := Split(s[1..], sep);
      JoinSplit(s[1..], sep);
      if s[0] == sep {
        assert ([""] + rest)[1..] == rest;
      } else {
        var parts := [[s[0]] + rest[0]] + rest[1..];
        if |rest| > 1 {
          assert parts[1..] == rest[1..];
          assert Join(rest, sep) == rest[0] + [sep] + Join(rest[1..], sep);
        }
      }
    }
  }

  /** The first field of a split is the text before the first separator. */
  lemma {:induction false} SplitFirstField(s: string, sep: char)
    ensures Split(s, sep)[0] == TakeUntil(s, sep)
  {
    if |s| > 0 && s[0] != sep {
      SplitFirstField(s[1..], sep);
    }
  }

  /** A separator-free prefix followed by the separator becomes the first field. */
  lemma {:induction false} SplitAfterPrefix(p: string, sep: char, rest: string)
    requires sep !in p
    ensures Split(p + [sep] + rest, sep) == [p] + Split(rest, sep)
  {
    if |p| == 0 {
      assert (p + [sep] + rest)[1..] == rest;
    } else {
      assert (p + [sep] + rest)[1..] == p[1..] + [sep] + rest;
      SplitAfterPrefix(p[1..], sep, rest);
      assert [p[0]] + p[1..] == p;
    }
  }

  /** `s.split(sep).pop()`: the last field. */
  function LastField(s: string, sep: char): string
  {
    var parts := Split(s, sep);
    parts[|parts| - 1]
  }

  /** One step of Split on a non-empty string, seen from its last field. */
  lemma SplitStep(s: string, sep: char)
    requires |s| > 0
    ensures |Split(s, sep)| == 1 <==> s[0] != sep && |Split(s[1..], sep)| == 1
    ensures s[0] == sep || |Split(s[1..], sep)| > 1 ==> LastField(s, sep) == LastField(s[1..], sep)
    ensures s[0] != sep && |Split(s[1..], sep)| == 1 ==> LastField(s, sep) == s
  {
    var rest := Split(s[1..], sep);
    if s[0] != sep && |rest| == 1 {
      assert Split(s, sep) == [[s[0]] + rest[0]];
      assert [s[0]] + s[1..] == s;
    }
  }

  /**
   * The last field is the suffix of `s` after its last separator, or all of `s` when
   * there is no separator (exactly when the split has one field).
   */
  lemma {:induction false} LastFieldIsSuffix(s: string, sep: char)
    ensures sep !in LastField(s, sep)
    ensures exists k :: 0 <= k <= |s| && s[k..] == LastField(s, sep)
                        && (k == 0 <==> |Split(s, sep)| == 1) && (k > 0 ==> s[k - 1] == sep)
  {
    if |s| == 0 {
      assert s[0..] == LastField(s, sep);
    } else {
      SplitStep(s, sep);
      LastFieldIsSuffix(s[1..], sep);
      var k' :| 0 <= k' <= |s[1..]| && s[1..][k'..] == LastField(s[1..], sep)
                && (k' == 0 <==> |Split(s[1..], sep)| == 1) && (k' > 0 ==> s[1..][k' - 1] == sep);
      if s[0] == sep || |Split(s[1..], sep)| > 1 {
        assert s[k' + 1..] == s[1..][k'..];
        assert s[k' + 1 - 1] == sep;
      } else {
        assert s[0..] == LastField(s, sep);
      }
    }
  }

  // ---------------------------------------------------------------- numbers

  predicate IsDigit(c: char) { '0' <= c <= '9' }

  function DigitChar(d: nat): char
    requires d < 10
  {
    ('0' as int + d) as char
  }

  /** The decimal rendering of a natural number, as String(n) prints it. */
  function NatToDecimal(n: nat): (r: string)
    ensures |r| >= 1
    ensures forall i :: 0 <= i < |r| ==> IsDigit(r[i])
    ensures r[0] == '0' ==> n == 0
  {
    if n < 10 then [DigitChar(n)] else NatToDecimal(n / 10) + [DigitChar(n % 10)]
  }

  /** String(i) for an integer. */
  function IntToDecimal(i: int): (r: string)
    ensures |r| >= 1
    ensures r[0] == '-' <==> i < 0
  {
    if i < 0 then "-" + NatToDecimal(-i) else NatToDecimal(i)
  }

  /** The value of a digit in the given radix (10 or 16), or -1 for a non-digit. */
  function DigitValue(c: char, radix: nat): (v: int)
    ensures -1 <= v < radix || radix < 10
  {
    if '0' <= c <= '9' && (c as int - '0' as int) < radix then c as int - '0' as int
    else if radix == 16 && 'a' <= c <= 'f' then c as int - 'a' as int + 10
    else if radix == 16 && 'A' <= c <= 'F' then c as int - 'A' as int + 10
    else -1
  }

  /** The length of the longest prefix of `s` made of radix digits. */
  function DigitRun(s: string, radix: nat): (n: nat)
    ensures n <= |s|
    ensures forall i :: 0 <= i < n ==> DigitValue(s[i], radix) >= 0
    ensures n < |s| ==> DigitValue(s[n], radix) < 0
  {
    if |s| == 0 || DigitValue(s[0], radix) < 0 then 0 else 1 + DigitRun(s[1..], radix)
  }

  /** The value of a string of radix digits, most significant first. */
  function DigitsValue(d: string, radix: nat): nat
    requires forall i :: 0 <= i < |d| ==> DigitValue(d[i], radix) >= 0
  {
    if |d| == 0 then 0
    else DigitsValue(d[..|d| - 1], radix) * radix + DigitValue(d[|d| - 1], radix)
  }

  /**
   * The digits part of parseInt after the sign: a leading "0x" or "0X" selects radix 16
   * when no radix is given (`autoRadix`); None stands for NaN (no digit at all).
   */
  function ParseUnsigned(u: string, autoRadix: bool): Option<nat>
  {
    var hex := autoRadix && |u| >= 2 && u[0] == '0' && (u[1] == 'x' || u[1] == 'X');
    var radix := if hex then 16 else 10;
    var body := if hex then u[2..] else u;
    var n := DigitRun(body, radix);
    if n == 0 then None else Some(DigitsValue(body[..n], radix))
  }

  /** parseInt after the leading whitespace: one optional sign, then the digits. */
  function ParseSigned(t: string, autoRadix: bool): Option<int>
  {
    var negative := |t| > 0 && t[0] == '-';
    var u := if |t| > 0 && (t[0] == '-' || t[0] == '+') then t[1..] else t;
    var p := ParseUnsigned(u, autoRadix);
    if p.None? then None else Some(if negative then -(p.value as int) else p.value as int)
  }

  /**
   * parseInt(s, 10) when `autoRadix` is false and parseInt(s) when it is true.
   * Leading whitespace is skipped and one sign is read. None stands for NaN.
   */
  function ParseInt(s: string, autoRadix: bool): Option<int>
  {
    ParseSigned(TrimStart(s, IsJsSpace), autoRadix)
  }

  /** parseInt(s, 10). */
  function ParseDecimal(s: string): Option<int>
  {
    ParseInt(s, false)
  }

  /** String(v) for a body field, as a template literal prints it. */
  function JsString(v: JsValue): (s: string)
    ensures v.Str? ==> s == v.s
    ensures v.Num? ==> s == IntToDecimal(v.n)
  {
    match v
    case Absent => "undefined"
    case Num(n) => IntToDecimal(n)
    case Str(s) => s
    case Bool(b) => if b then "true" else "false"
  }

  /**
   * parseInt applied to a body field, which first converts it to a string: an absent
   * field reads "undefined", a boolean "true" or "false", and a number prints as its
   * decimal digits.
   */
  function ParseIntValue(v: JsValue, autoRadix: bool): (r: Option<int>)
    ensures r == ParseInt(JsString(v), autoRadix)
    ensures v.Absent? || v.Bool? ==> r.None?
    ensures v.Num? ==> r == Some(v.n)
    ensures v.Str? ==> r == ParseInt(v.s, autoRadix)
  {
    match v
    case Absent =>
      WordIsNaN("undefined", autoRadix);
      ParseInt("undefined", autoRadix)
    case Num(n) =>
      IntRoundTrip(n, autoRadix);
      ParseInt(IntToDecimal(n), autoRadix)
    case Str(s) => ParseInt(s, autoRadix)
    case Bool(b) =>
      var t := if b then "true" else "false";
      WordIsNaN(t, autoRadix);
      ParseInt(t, autoRadix)
  }

  /** A string starting with a lowercase letter parses to NaN. */
  lemma WordIsNaN(t: string, autoRadix: bool)
    requires |t| > 0 && 'a' <= t[0] <= 'z'
    ensures ParseInt(t, autoRadix).None?
  {
    assert LeadingCount(t, IsJsSpace) == 0;
    assert TrimStart(t, IsJsSpace) == t;
    assert DigitValue(t[0], 10) < 0;
    assert DigitRun(t, 10) == 0;
  }

  /** The digits printed for `n` read back as `n`. */
  lemma {:induction false} DecimalValue(n: nat)
    ensures DigitRun(NatToDecimal(n), 10) == |NatToDecimal(n)|
    ensures DigitsValue(NatToDecimal(n), 10) == n
  {
    var d := NatToDecimal(n);
    DigitRunAll(d, 10);
    if n >= 10 {
      DecimalValue(n / 10);
      assert d[..|d| - 1] == NatToDecimal(n / 10);
    }
  }

  lemma {:induction false} DigitRunAll(s: string, radix: nat)
    requires forall i :: 0 <= i < |s| ==> DigitValue(s[i], radix) >= 0
    ensures DigitRun(s, radix) == |s|
  {
    if |s| > 0 {
      DigitRunAll(s[1..], radix);
    }
  }

  lemma {:induction false} UnsignedRoundTrip(n: nat, autoRadix: bool)
    ensures ParseUnsigned(NatToDecimal(n), autoRadix) == Some(n)
  {
    var d := NatToDecimal(n);
    DecimalValue(n);
    assert |d| >= 2 ==> d[1] != 'x' && d[1] != 'X';
    assert d[..|d|] == d;
  }

  /** parseInt, with or without a radix, inverts String on integers. */
  lemma {:induction false} IntRoundTrip(i: int, autoRadix: bool)
    ensures ParseInt(IntToDecimal(i), autoRadix) == Some(i)
  {
    var n: nat := if i < 0 then -i else i;
    var d := NatToDecimal(n);
    UnsignedRoundTrip(n, autoRadix);
    if i < 0 {
      NoLeadingSpace("-" + d);
      SignedNegative(d, autoRadix, n);
    } else {
      NoLeadingSpace(d);
      SignedPositive(d, autoRadix, n);
    }
  }

  lemma NoLeadingSpace(t: string)
    requires |t| > 0 && (t[0] == '-' || IsDigit(t[0]))
    ensures TrimStart(t, IsJsSpace) == t
  {
    assert !IsJsSpace(t[0]);
    assert LeadingCount(t, IsJsSpace) == 0;
  }

  lemma SignedPositive(d: string, autoRadix: bool, n: nat)
    requires ParseUnsigned(d, autoRadix) == Some(n) && |d| > 0 && IsDigit(d[0])
    ensures ParseSigned(d, autoRadix) == Some(n)
  {
  }

  lemma SignedNegative(d: string, autoRadix: bool, n: nat)
    requires ParseUnsigned(d, autoRadix) == Some(n)
    ensures ParseSigned("-" + d, autoRadix) == Some(-(n as int))
  {
    assert ("-" + d)[1..] == d;
  }

  /** Decimal rendering is injective: different numbers never render alike. */
  lemma {:induction false} DecimalInjective(a: nat, b: nat)
    requires NatToDecimal(a) == NatToDecimal(b)
    ensures a == b
  {
    DecimalValue(a);
    DecimalValue(b);
  }

  // ---------------------------------------------------------------- slice and length

  /** How Array.prototype.slice and String.prototype.slice normalise an index. */
  function ClampIndex(i: int, n: nat): (r: nat)
    ensures r <= n
  {
    if i < 0 then (if n + i < 0 then 0 else n + i) else if i > n then n else i
  }

  /** `s.slice(start, end)`. */
  function JsSlice<T>(s: seq<T>, start: int, end: int): (r: seq<T>)
    ensures |r| <= |s|
    ensures 0 <= start <= end <= |s| ==> r == s[start..end]
  {
    var a := ClampIndex(start, |s|);
    var b := ClampIndex(end, |s|);
    if a < b then s[a..b] else []
  }

  /** String.prototype.length counts UTF-16 code units: two for a character above U+FFFF. */
  function JsLength(s: string): (n: nat)
    ensures |s| <= n <= 2 * |s|
  {
    if |s| == 0 then 0 else JsLength(s[..|s| - 1]) + (if s[|s| - 1] as int > 0xFFFF then 2 else 1)
  }

  lemma {:induction false} JsLengthAppend(a: string, b: string)
    ensures JsLength(a + b) == JsLength(a) + JsLength(b)
  {
    if |b| > 0 {
      assert (a + b)[..|a + b| - 1] == a + b[..|b| - 1];
      JsLengthAppend(a, b[..|b| - 1]);
    } else {
      assert a + b == a;
    }
  }
}
