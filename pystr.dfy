/**
 * The few pieces of Python's `str` behaviour the core relies on:
 * `isspace`/`strip`, ASCII `lower`, `find`/`split`/`splitlines`,
 * `int(...)` on decimal text, `f"{n:02d}"`, and the code-point order
 * Python uses to compare strings.
 */
module PyStr {
  import opened Wrappers

  /** The characters for which Python's `str.isspace()` is true. */
  predicate IsSpace(c: char) {
    c == ' ' || ('\t' <= c <= '\r') || ('\U{1c}' <= c <= '\U{1f}')
    || c == '\U{85}' || c == '\U{a0}' || c == '\U{1680}'
    || ('\U{2000}' <= c <= '\U{200a}') || c == '\U{2028}' || c == '\U{2029}'
    || c == '\U{202f}' || c == '\U{205f}' || c == '\U{3000}'
  }

  /** `s.lstrip()`: drop leading whitespace. */
  function LStrip(s: string): (r: string)
    ensures |r| <= |s| && r == s[|s| - |r|..]
    ensures forall k | 0 <= k < |s| - |r| :: IsSpace(s[k])
    ensures r == [] || !IsSpace(r[0])
  {
    if s != [] && IsSpace(s[0]) then LStrip(s[1..]) else s
  }

  /** `s.rstrip()`: drop trailing whitespace. */
  function RStrip(s: string): (r: string)
    ensures |r| <= |s| && r == s[..|r|]
    ensures forall k | |r| <= k < |s| :: IsSpace(s[k])
    ensures r == [] || !IsSpace(r[|r| - 1])
  {
    if s != [] && IsSpace(s[|s| - 1]) then RStrip(s[..|s| - 1]) else s
  }

  /** `s.strip()`: the slice of `s` left once whitespace is removed at both ends. */
  function Strip(s: string): (r: string)
    ensures |r| <= |s|
    ensures r == [] || (!IsSpace(r[0]) && !IsSpace(r[|r| - 1]))
    ensures forall c | c in r :: c in s
  {
    RStrip(LStrip(s))
  }

  /** A string that neither starts nor ends with whitespace is its own strip. */
  lemma StripTrimmed(s: string)
    requires s == [] || (!IsSpace(s[0]) && !IsSpace(s[|s| - 1]))
    ensures Strip(s) == s
  {
  }

  /** Leading whitespace in front of a string that starts with a non-space is exactly what `lstrip` drops. */
  lemma {:induction false} LStripPadding(pre: string, s: string)
    requires forall k | 0 <= k < |pre| :: IsSpace(pre[k])
    requires s != [] && !IsSpace(s[0])
    ensures LStrip(pre + s) == s
    decreases |pre|
  {
    if pre != [] {
      assert (pre + s)[0] == pre[0];
      assert (pre + s)[1..] == pre[1..] + s;
      LStripPadding(pre[1..], s);
    } else {
      assert pre + s == s;
    }
  }

  /** Trailing whitespace after a string that ends with a non-space is exactly what `rstrip` drops. */
  lemma {:induction false} RStripPadding(s: string, post: string)
    requires forall k | 0 <= k < |post| :: IsSpace(post[k])
    requires s != [] && !IsSpace(s[|s| - 1])
    ensures RStrip(s + post) == s
    decreases |post|
  {
    if post != [] {
      var shorter := post[..|post| - 1];
      assert (s + post)[|s + post| - 1] == post[|post| - 1];
      assert (s + post)[..|s + post| - 1] == s + shorter;
      RStripPadding(s, shorter);
    } else {
      assert s + post == s;
    }
  }

  /** `strip` removes exactly the whitespace padding around a trimmed, non-empty string. */
  lemma StripPadding(pre: string, s: string, post: string)
    requires forall k | 0 <= k < |pre| :: IsSpace(pre[k])
    requires forall k | 0 <= k < |post| :: IsSpace(post[k])
    requires s != [] && !IsSpace(s[0]) && !IsSpace(s[|s| - 1])
    ensures Strip(pre + s + post) == s
  {
    assert pre + s + post == pre + (s + post);
    LStripPadding(pre, s + post);
    RStripPadding(s, post);
  }

  /** Stripping twice is stripping once. */
  lemma StripIdempotent(s: string)
    ensures Strip(Strip(s)) == Strip(s)
  {
    StripTrimmed(Strip(s));
  }

  function LowerChar(c: char): char {
    if 'A' <= c <= 'Z' then (c as int + 32) as char else c
  }

  /** `s.lower()` on the ASCII letters (the only letters the core's inputs are compared against). */
  function Lower(s: string): (r: string)
    ensures |r| == |s| && forall i | 0 <= i < |s| :: r[i] == LowerChar(s[i])
  {
    seq(|s|, i requires 0 <= i < |s| => LowerChar(s[i]))
  }

  predicate StartsWith(s: string, prefix: string) {
    |prefix| <= |s| && s[..|prefix|] == prefix
  }

  predicate OccursAt(s: string, sub: string, i: int) {
    0 <= i && i + |sub| <= |s| && s[i..i + |sub|] == sub
  }

  /** `s.find(sub, start)`: the leftmost occurrence at or after `start`. */
  function FindFrom(s: string, sub: string, start: nat): (r: Option<nat>)
    requires start <= |s|
    ensures r.Some? ==> start <= r.value && OccursAt(s, sub, r.value)
    ensures r.Some? ==> forall j | start <= j < r.value :: !OccursAt(s, sub, j)
    ensures r.None? ==> forall j | start <= j :: !OccursAt(s, sub, j)
    decreases |s| - start
  {
    if OccursAt(s, sub, start) then Some(start)
    else if start == |s| then None
    else FindFrom(s, sub, start + 1)
  }

  /** `sub in s`. */
  predicate Contains(s: string, sub: string) {
    FindFrom(s, sub, 0).Some?
  }

  /** `sep.join(parts)`. */
  function Join(parts: seq<string>, sep: string): string {
    if parts == [] then ""
    else if |parts| == 1 then parts[0]
    else parts[0] + sep + Join(parts[1..], sep)
  }

  /**
   * `s.split(sep)` for a non-empty separator: cut at every leftmost
   * occurrence, left to right. The pieces joined back with `sep` give `s`,
   * and no piece contains `sep`.
   */
  function Split(s: string, sep: string): (r: seq<string>)
    requires sep != []
    ensures |r| >= 1
    ensures Join(r, sep) == s
    ensures forall p | p in r :: !Contains(p, sep)
    decreases |s|
  {
    match FindFrom(s, sep, 0)
    case None => [s]
    case Some(i) =>
      var head := s[..i];
      var rest := Split(s[i + |sep|..], sep);
      assert s == head + sep + s[i + |sep|..];
      assert !Contains(head, sep) by {
        forall j | 0 <= j
          ensures !OccursAt(head, sep, j)
        {
          if j + |sep| <= |head| {
            assert head[j..j + |sep|] == s[j..j + |sep|];
            assert !OccursAt(s, sep, j);
          }
        }
      }
      [head] + rest
  }

  /** The characters `str.splitlines()` treats as line boundaries. */
  predicate IsLineBreak(c: char) {
    c == '\n' || c == '\r' || c == '\U{0b}' || c == '\U{0c}' || ('\U{1c}' <= c <= '\U{1e}')
    || c == '\U{85}' || c == '\U{2028}' || c == '\U{2029}'
  }

  function FirstBreak(s: string, from: nat): (r: Option<nat>)
    requires from <= |s|
    ensures r.Some? ==> from <= r.value < |s| && IsLineBreak(s[r.value])
    ensures r.Some? ==> forall j | from <= j < r.value :: !IsLineBreak(s[j])
    ensures r.None? ==> forall j | from <= j < |s| :: !IsLineBreak(s[j])
    decreases |s| - from
  {
    if from == |s| then None
    else if IsLineBreak(s[from]) then Some(from)
    else FirstBreak(s, from + 1)
  }

  /**
   * `s.splitlines()`: the lines of `s` without their terminators; `"\r\n"`
   * is one terminator and a final terminator opens no extra empty line.
   */
  function SplitLines(s: string): (r: seq<string>)
    ensures forall line | line in r :: forall c | c in line :: !IsLineBreak(c)
    ensures s == [] <==> r == []
    decreases |s|
  {
    if s == [] then []
    else match FirstBreak(s, 0)
      case None => [s]
      case Some(i) =>
        var width := if s[i] == '\r' && i + 1 < |s| && s[i + 1] == '\n' then 2 else 1;
        assert forall c | c in s[..i] :: !IsLineBreak(c);
        [s[..i]] + SplitLines(s[i + width..])
  }

  predicate IsDigit(c: char) {
    '0' <= c <= '9'
  }

  function DigitValue(c: char): nat
    requires IsDigit(c)
  {
    c as int - '0' as int
  }

  function DigitChar(d: nat): (c: char)
    requires d < 10
    ensures IsDigit(c) && DigitValue(c) == d
  {
    ('0' as int + d) as char
  }

  /** Digits with single underscores between them, as Python's `int()` accepts. */
  predicate IsDigitGroup(s: string) {
    |s| > 0 && IsDigit(s[0]) && IsDigit(s[|s| - 1])
    && (forall i | 0 <= i < |s| :: IsDigit(s[i]) || s[i] == '_')
    && (forall i | 0 <= i < |s| - 1 :: s[i] == '_' ==> s[i + 1] != '_')
  }

  /** The value of a digit group, read left to right, underscores skipped. */
  function DigitsValue(s: string): nat
    requires forall i | 0 <= i < |s| :: IsDigit(s[i]) || s[i] == '_'
  {
    if s == [] then 0
    else if s[|s| - 1] == '_' then DigitsValue(s[..|s| - 1])
    else 10 * DigitsValue(s[..|s| - 1]) + DigitValue(s[|s| - 1])
  }

  /**
   * `int(s)` on text: surrounding whitespace ignored, an optional sign,
   * then a decimal digit group; anything else is a `ValueError` (`None`).
   */
  function ParseInt(s: string): (r: Option<int>)
    ensures r.Some? ==> Strip(s) != []
  {
    var t := Strip(s);
    if t == [] then None
    else
      var negative := t[0] == '-';
      var body := if t[0] == '-' || t[0] == '+' then t[1..] else t;
      if !IsDigitGroup(body) then None
      else if negative then Some(-(DigitsValue(body) as int))
      else Some(DigitsValue(body))
  }

  /** `str(n)` for a natural number. */
  function NatToString(n: nat): (r: string)
    ensures |r| > 0 && forall i | 0 <= i < |r| :: IsDigit(r[i])
    ensures DigitsValue(r) == n
  {
    if n < 10 then [DigitChar(n)]
    else
      var r := NatToString(n / 10) + [DigitChar(n % 10)];
      assert r[..|r| - 1] == NatToString(n / 10);
      r
  }

  /** `f"{n:02d}"`: at least two digits, zero-padded. */
  function Pad2(n: nat): (r: string)
    ensures |r| >= 2
  {
    if n < 10 then ['0', DigitChar(n)] else NatToString(n)
  }

  lemma DigitsAreGroup(s: string)
    requires |s| > 0 && forall i | 0 <= i < |s| :: IsDigit(s[i])
    ensures IsDigitGroup(s)
  {
  }

  lemma DigitsParse(s: string, n: int)
    requires |s| > 0 && forall i | 0 <= i < |s| :: IsDigit(s[i])
    requires n == DigitsValue(s)
    ensures ParseInt(s) == Some(n)
  {
    assert IsDigit(s[0]) && IsDigit(s[|s| - 1]);
    StripTrimmed(s);
    DigitsAreGroup(s);
    assert s[0] != '-' && s[0] != '+';
  }

  /** Reading back a decimal rendering gives the number: `int(str(n)) == n`. */
  lemma ParseNatToString(n: nat)
    ensures ParseInt(NatToString(n)) == Some(n)
  {
    DigitsParse(NatToString(n), n);
  }

  /** `int(f"{n:02d}") == n`. */
  lemma ParsePad2(n: nat)
    ensures ParseInt(Pad2(n)) == Some(n)
  {
    if n < 10 {
      var s := Pad2(n);
      assert s[..1] == ['0'];
      assert DigitsValue(s[..1]) == 0 by {
        assert s[..1][..0] == [];
      }
      DigitsParse(s, n);
    } else {
      ParseNatToString(n);
    }
  }

  /** `int("-" + digits)` is the negated value of the digits: the form a negative list index takes. */
  lemma ParseNegative(s: string, body: string)
    requires |body| > 0 && forall i | 0 <= i < |body| :: IsDigit(body[i])
    requires s == "-" + body
    ensures ParseInt(s) == Some(-(DigitsValue(body) as int))
  {
    assert s[|s| - 1] == body[|body| - 1];
    StripTrimmed(s);
    assert s[1..] == body;
    DigitsAreGroup(body);
  }

  /** The position of the first decimal point in `s`, if there is one. */
  function FirstPoint(s: string): (r: Option<nat>)
    ensures r.Some? ==> r.value < |s| && s[r.value] == '.' && '.' !in s[..r.value]
    ensures r.None? ==> '.' !in s
  {
    if s == [] then None
    else if s[0] == '.' then Some(0)
    else match FirstPoint(s[1..])
      case None => None
      case Some(i) =>
        assert s[..i + 1] == [s[0]] + s[1..][..i];
        Some(i + 1)
  }

  /** The digits after a decimal point read as `0.d1d2...`, underscores skipped. */
  function FractionValue(s: string): (r: real)
    requires forall i | 0 <= i < |s| :: IsDigit(s[i]) || s[i] == '_'
    ensures 0.0 <= r < 1.0
  {
    if s == [] then 0.0
    else if s[0] == '_' then FractionValue(s[1..])
    else (DigitValue(s[0]) as real + FractionValue(s[1..])) / 10.0
  }

  /**
   * An unsigned decimal literal: a digit group, or at most one point with a
   * digit group on at least one side of it (`"1."`, `".5"`, `"1_000.25"`).
   */
  function UnsignedDecimal(body: string): (r: Option<real>)
    ensures r.Some? ==> 0.0 <= r.value
  {
    match FirstPoint(body)
    case None => if IsDigitGroup(body) then Some(DigitsValue(body) as real) else None
    case Some(i) =>
      var whole := body[..i];
      var frac := body[i + 1..];
      if (whole == [] || IsDigitGroup(whole)) && (frac == [] || IsDigitGroup(frac)) && (whole != [] || frac != [])
      then Some(DigitsValue(whole) as real + FractionValue(frac))
      else None
  }

  /**
   * `float(s)` on decimal text: surrounding whitespace ignored, an optional
   * sign, then an unsigned decimal literal; anything else is a `ValueError`
   * (`None`).
   */
  function ParseFloat(s: string): (r: Option<real>)
    ensures r.Some? ==> Strip(s) != []
    ensures r.Some? && Strip(s)[0] == '-' ==> r.value <= 0.0
    ensures r.Some? && Strip(s)[0] != '-' ==> r.value >= 0.0
  {
    var t := Strip(s);
    if t == [] then None
    else
      var negative := t[0] == '-';
      var body := if t[0] == '-' || t[0] == '+' then t[1..] else t;
      match UnsignedDecimal(body)
      case None => None
      case Some(v) => Some(if negative then -v else v)
  }

  /** A digit group has no decimal point, so it reads as a whole number. */
  lemma DigitGroupDecimal(body: string)
    requires IsDigitGroup(body)
    ensures UnsignedDecimal(body) == Some(DigitsValue(body) as real)
  {
    assert forall k | 0 <= k < |body| :: body[k] != '.';
  }

  /** Whatever `int()` reads, `float()` reads as the same number. */
  lemma ParseFloatOfInt(s: string, n: int)
    requires ParseInt(s) == Some(n)
    ensures ParseFloat(s) == Some(n as real)
  {
    var t := Strip(s);
    var body := if t[0] == '-' || t[0] == '+' then t[1..] else t;
    DigitGroupDecimal(body);
  }

  lemma FractionDigits(d: char, rest: string)
    requires IsDigit(d) && forall i | 0 <= i < |rest| :: IsDigit(rest[i]) || rest[i] == '_'
    ensures FractionValue([d] + rest) == (DigitValue(d) as real + FractionValue(rest)) / 10.0
  {
    assert ([d] + rest)[1..] == rest;
  }

  /** `float("1.25") == 1.25` and `float(".5") == 0.5`. */
  lemma DecimalFractions()
    ensures UnsignedDecimal("1.25") == Some(1.25)
    ensures UnsignedDecimal(".5") == Some(0.5)
  {
    FractionDigits('5', "");
    FractionDigits('2', "5");
    assert "1.25"[1..] == ".25";
    assert FirstPoint("1.25") == Some(1);
    assert "1.25"[..1] == "1" && "1.25"[2..] == "25";
    assert DigitsValue("1") == 1 by {
      assert "1"[..0] == "";
    }
    assert FirstPoint(".5") == Some(0);
    assert ".5"[..0] == "" && ".5"[1..] == "5";
  }

  /** Python's `<=` on strings: code-point lexicographic order, a prefix first. */
  predicate LexLeq(a: string, b: string) {
    a == [] || (b != [] && (a[0] < b[0] || (a[0] == b[0] && LexLeq(a[1..], b[1..]))))
  }

  lemma {:induction false} LexTotal(a: string, b: string)
    ensures LexLeq(a, b) || LexLeq(b, a)
  {
    if a != [] && b != [] && a[0] == b[0] {
      LexTotal(a[1..], b[1..]);
    }
  }

  lemma {:induction false} LexAntisymmetric(a: string, b: string)
    requires LexLeq(a, b) && LexLeq(b, a)
    ensures a == b
  {
    if a != [] && b != [] {
      LexAntisymmetric(a[1..], b[1..]);
      assert a == [a[0]] + a[1..] && b == [b[0]] + b[1..];
    }
  }

  lemma {:induction false} LexTransitive(a: string, b: string, c: string)
    requires LexLeq(a, b) && LexLeq(b, c)
    ensures LexLeq(a, c)
  {
    if a != [] && b != [] && c != [] && a[0] == b[0] && b[0] == c[0] {
      LexTransitive(a[1..], b[1..], c[1..]);
    }
  }
}
