/** Strings as the pipeline uses them: lowercasing, substring tests, the code-point
    order that sorts a mode's candidates, and the plain decimals that `pd.to_numeric(...)`
    and Python's `float(...)` read. */
module Strings {
  import opened Wrappers

  // ---------------------------------------------------------------------------
  // Lowercasing (ASCII letters; see README for the Unicode case left out)

  function LowerChar(c: char): char {
    if 'A' <= c <= 'Z' then (c as int + 32) as char else c
  }

  predicate IsLowerChar(c: char) {
    !('A' <= c <= 'Z')
  }

  predicate IsLower(s: string) {
    forall i :: 0 <= i < |s| ==> IsLowerChar(s[i])
  }

  /** `str.lower()`: every upper-case letter becomes its lower-case partner, and every
      other character stays as it is. */
  function Lower(s: string): (r: string)
    ensures |r| == |s| && IsLower(r)
    ensures forall i :: 0 <= i < |s| && 'A' <= s[i] <= 'Z' ==> r[i] as int == s[i] as int + 32
    ensures forall i :: 0 <= i < |s| && IsLowerChar(s[i]) ==> r[i] == s[i]
  {
    seq(|s|, i requires 0 <= i < |s| => LowerChar(s[i]))
  }

  /** Lowercasing a lowercase string changes nothing, so lowercasing twice is lowercasing once. */
  lemma LowerOfLower(s: string)
    requires IsLower(s)
    ensures Lower(s) == s
  {
  }

  lemma LowerIdempotent(s: string)
    ensures Lower(Lower(s)) == Lower(s)
  {
    LowerOfLower(Lower(s));
  }

  // ---------------------------------------------------------------------------
  // Substrings: Python's `sub in s`

  predicate StartsWith(s: string, prefix: string) {
    |prefix| <= |s| && s[..|prefix|] == prefix
  }

  predicate EndsWith(s: string, suffix: string) {
    |suffix| <= |s| && s[|s| - |suffix|..] == suffix
  }

  /** `sub in s` holds exactly when `sub` occurs at some position of `s`. */
  predicate Contains(s: string, sub: string)
    decreases |s|
  {
    StartsWith(s, sub) || (|s| > 0 && Contains(s[1..], sub))
  }

  ghost predicate OccursAt(s: string, sub: string, i: int) {
    0 <= i && i + |sub| <= |s| && s[i..i + |sub|] == sub
  }

  /** The recursive test agrees with the positional definition, in both directions. */
  lemma {:induction false} ContainsIff(s: string, sub: string)
    ensures Contains(s, sub) <==> exists i :: OccursAt(s, sub, i)
    decreases |s|
  {
    if StartsWith(s, sub) {
      assert OccursAt(s, sub, 0);
    } else if |s| > 0 {
      ContainsIff(s[1..], sub);
      if Contains(s[1..], sub) {
        var i :| OccursAt(s[1..], sub, i);
        assert s[1..][i..i + |sub|] == s[i + 1..i + 1 + |sub|];
        assert OccursAt(s, sub, i + 1);
      }
      if exists i :: OccursAt(s, sub, i) {
        var i :| OccursAt(s, sub, i);
        assert i != 0;
        assert s[1..][i - 1..i - 1 + |sub|] == s[i..i + |sub|];
        assert OccursAt(s[1..], sub, i - 1);
      }
    }
  }

  /** A string that contains `sub` still contains it with anything added around it. */
  lemma ContainsInContext(pre: string, s: string, post: string, sub: string)
    requires Contains(s, sub)
    ensures Contains(pre + s + post, sub)
  {
    ContainsIff(s, sub);
    var i :| OccursAt(s, sub, i);
    var w := pre + s + post;
    assert w[|pre| + i..|pre| + i + |sub|] == s[i..i + |sub|];
    assert OccursAt(w, sub, |pre| + i);
    ContainsIff(w, sub);
  }

  // ---------------------------------------------------------------------------
  // Code-point order on strings, as Python compares `str` values

  predicate LexLess(a: string, b: string)
    decreases |a|
  {
    if |a| == 0 then |b| > 0
    else if |b| == 0 then false
    else a[0] < b[0] || (a[0] == b[0] && LexLess(a[1..], b[1..]))
  }

  lemma {:induction false} LexLessIrreflexive(a: string)
    ensures !LexLess(a, a)
    decreases |a|
  {
    if |a| > 0 {
      LexLessIrreflexive(a[1..]);
    }
  }

  lemma {:induction false} LexLessTransitive(a: string, b: string, c: string)
    requires LexLess(a, b) && LexLess(b, c)
    ensures LexLess(a, c)
    decreases |a|
  {
    if |a| > 0 && |b| > 0 && |c| > 0 && a[0] == b[0] == c[0] {
      LexLessTransitive(a[1..], b[1..], c[1..]);
    }
  }

  lemma {:induction false} LexLessTotal(a: string, b: string)
    requires a != b
    ensures LexLess(a, b) || LexLess(b, a)
    decreases |a|
  {
    if |a| > 0 && |b| > 0 && a[0] == b[0] {
      assert a == [a[0]] + a[1..] && b == [b[0]] + b[1..];
      LexLessTotal(a[1..], b[1..]);
    }
  }

  // ---------------------------------------------------------------------------
  // Decimal numbers, as two libraries read them

  /** Whose number syntax: pandas' own parser (`pd.to_numeric`), or Python's `float()`
      (which the HTML form's value and `astype(float)` on text go through). */
  datatype Reader = Pandas | Python

  /** The white space of C's `isspace`, which pandas' parser skips around a number. */
  predicate IsSpace(c: char) {
    c == ' ' || c == '\t' || c == '\n' || c == '\r' || c == '\U{0B}' || c == '\U{0C}'
  }

  /** The white space of Python's `str.isspace`, which `float()` strips: the ASCII set,
      the information separators and the Unicode spaces such as U+00A0. */
  predicate IsUnicodeSpace(c: char) {
    || IsSpace(c)
    || '\U{1C}' <= c <= '\U{1F}' || c == '\U{85}' || c == '\U{A0}' || c == '\U{1680}'
    || '\U{2000}' <= c <= '\U{200A}' || c == '\U{2028}' || c == '\U{2029}'
    || c == '\U{202F}' || c == '\U{205F}' || c == '\U{3000}'
  }

  predicate Blank(c: char, rd: Reader) {
    if rd == Python then IsUnicodeSpace(c) else IsSpace(c)
  }

  predicate IsDigit(c: char) {
    '0' <= c <= '9'
  }

  predicate AllDigits(s: string) {
    forall i :: 0 <= i < |s| ==> IsDigit(s[i])
  }

  /** Digits where single underscores may stand between two digits ("1_000"), as
      Python's number literals and `float()` allow. */
  predicate Grouped(s: string) {
    && (forall i :: 0 <= i < |s| ==> IsDigit(s[i]) || s[i] == '_')
    && (forall i :: 0 <= i < |s| && s[i] == '_' ==> Separates(s, i))
  }

  /** Position `i` has a digit on either side. */
  predicate Separates(s: string, i: int)
    requires 0 <= i < |s|
  {
    0 < i < |s| - 1 && IsDigit(s[i - 1]) && IsDigit(s[i + 1])
  }

  /** A run of digits in the reader's syntax. */
  predicate DigitRun(s: string, rd: Reader) {
    if rd == Python then Grouped(s) else AllDigits(s)
  }

  /** The digits of a run, its underscores dropped. */
  function Ungroup(s: string): (r: string)
    ensures |r| <= |s|
    ensures (forall i :: 0 <= i < |s| ==> IsDigit(s[i]) || s[i] == '_') ==> AllDigits(r)
    ensures |s| > 0 && IsDigit(s[0]) ==> |r| > 0
    ensures AllDigits(s) ==> r == s
  {
    if |s| == 0 then []
    else (if s[0] == '_' then [] else [s[0]]) + Ungroup(s[1..])
  }

  lemma RunUngroups(s: string, rd: Reader)
    requires DigitRun(s, rd)
    ensures AllDigits(Ungroup(s))
  {
  }

  /** Leading and trailing white space removed. */
  function Trim(s: string, rd: Reader): (r: string)
    ensures |r| <= |s|
    ensures |r| > 0 ==> !Blank(r[0], rd) && !Blank(r[|r| - 1], rd)
    ensures (forall i :: 0 <= i < |s| ==> !Blank(s[i], rd)) ==> r == s
    ensures |s| > 0 && !Blank(s[0], rd) ==> |r| > 0 && r[0] == s[0]
    ensures |s| > 0 && !Blank(s[|s| - 1], rd) ==> |r| > 0 && r[|r| - 1] == s[|s| - 1]
    decreases |s|
  {
    if |s| > 0 && Blank(s[0], rd) then Trim(s[1..], rd)
    else if |s| > 0 && Blank(s[|s| - 1], rd) then Trim(s[..|s| - 1], rd)
    else s
  }

  function DigitValue(c: char): nat {
    if IsDigit(c) then c as int - '0' as int else 0
  }

  /** The number a string of digits denotes (the parsers apply it only to digits,
      see `RunUngroups`). */
  function DigitsValue(s: string): nat {
    if |s| == 0 then 0 else 10 * DigitsValue(s[..|s| - 1]) + DigitValue(s[|s| - 1])
  }

  /** The position of the first '.', or |s| when there is none. */
  function DotIndex(s: string): (k: nat)
    ensures k <= |s|
    ensures forall i :: 0 <= i < k ==> s[i] != '.'
    ensures k < |s| ==> s[k] == '.'
  {
    if |s| == 0 then 0 else if s[0] == '.' then 0 else 1 + DotIndex(s[1..])
  }

  /** Digit runs with an optional fractional part: "12", "12.5", "12.", ".5". */
  function ParseUnsigned(s: string, rd: Reader): Option<real> {
    var k := DotIndex(s);
    ParseParts(s[..k], if k < |s| then s[k + 1..] else "", rd)
  }

  /** The value of the digits before and after the point, when both are runs and
      not both are empty. */
  function ParseParts(whole: string, frac: string, rd: Reader): Option<real> {
    if DigitRun(whole, rd) && DigitRun(frac, rd) && |whole| + |frac| > 0 then
      var w := Ungroup(whole);
      var f := Ungroup(frac);
      Some(DigitsValue(w) as real + FracValue(f))
    else
      None
  }

  /** The value of the digits after the point: ".d1d2..." is (d1 + ".d2...") / 10. */
  function FracValue(f: string): real {
    if |f| == 0 then 0.0 else (DigitValue(f[0]) as real + FracValue(f[1..])) / 10.0
  }

  /** Plain digits are a run for either reader. */
  lemma DigitsAreRun(s: string, rd: Reader)
    requires AllDigits(s)
    ensures DigitRun(s, rd)
  {
    if rd == Python {
      assert forall i :: 0 <= i < |s| ==> s[i] != '_';
    }
  }

  /** A run without a point reads as its digits. */
  lemma WholePart(w: string, rd: Reader)
    requires |w| > 0 && DigitRun(w, rd)
    ensures ParseParts(w, "", rd) == Some(DigitsValue(Ungroup(w)) as real)
  {
    EmptyRun(rd);
  }

  lemma EmptyRun(rd: Reader)
    ensures DigitRun("", rd) && Ungroup("") == "" && FracValue("") == 0.0
  {
    DigitsAreRun("", rd);
  }

  /** The plain decimals of the reader's syntax: optional white space, an optional sign,
      then digits with an optional fractional part. */
  function ParseNumber(s: string, rd: Reader): Option<real> {
    ParseSigned(Trim(s, rd), rd)
  }

  function ParseSigned(t: string, rd: Reader): Option<real> {
    if |t| > 0 && t[0] == '-' then
      match ParseUnsigned(t[1..], rd)
      case Some(v) => Some(-v)
      case None => None
    else if |t| > 0 && t[0] == '+' then ParseUnsigned(t[1..], rd)
    else ParseUnsigned(t, rd)
  }

  /** `pd.to_numeric` on one text cell. */
  function ParseDecimal(s: string): Option<real> {
    ParseNumber(s, Pandas)
  }

  /** `float()` on one string. */
  function ParseFloat(s: string): Option<real> {
    ParseNumber(s, Python)
  }

  /** Python's reader accepts every number pandas' reader does, with the same value;
      its syntax only adds underscores and the wider white space. */
  lemma PandasNumbersAreFloats(s: string)
    requires ParseDecimal(s).Some?
    ensures ParseFloat(s) == ParseDecimal(s)
  {
    var t := Trim(s, Pandas);
    SignedEnds(t);
    TrimAgrees(s);
    SignedPandasFloat(t);
  }

  lemma SignedPandasFloat(t: string)
    requires ParseSigned(t, Pandas).Some?
    ensures ParseSigned(t, Python) == ParseSigned(t, Pandas)
  {
    if |t| > 0 && (t[0] == '-' || t[0] == '+') {
      UnsignedPandasFloat(t[1..]);
    } else {
      UnsignedPandasFloat(t);
    }
  }

  /** A number pandas reads starts with a sign, a digit or a point and ends with a digit
      or a point, so no white space of either kind is left around it. */
  lemma SignedEnds(t: string)
    requires ParseSigned(t, Pandas).Some?
    ensures |t| > 0 && !IsUnicodeSpace(t[0]) && !IsUnicodeSpace(t[|t| - 1])
  {
    if |t| > 0 && (t[0] == '-' || t[0] == '+') {
      UnsignedEnds(t[1..]);
      assert t[|t| - 1] == t[1..][|t| - 2];
    } else {
      UnsignedEnds(t);
    }
    NumberCharNotSpace(t[0]);
    NumberCharNotSpace(t[|t| - 1]);
  }

  lemma NumberCharNotSpace(c: char)
    requires IsDigit(c) || c == '.' || c == '-' || c == '+'
    ensures !IsUnicodeSpace(c)
  {
  }

  lemma UnsignedEnds(u: string)
    requires ParseUnsigned(u, Pandas).Some?
    ensures |u| > 0 && (IsDigit(u[0]) || u[0] == '.') && (IsDigit(u[|u| - 1]) || u[|u| - 1] == '.')
  {
    var k := DotIndex(u);
    if k < |u| && k + 1 < |u| {
      assert u[|u| - 1] == u[k + 1..][|u| - k - 2];
    }
    if 0 < k {
      assert u[0] == u[..k][0];
    }
    if k == |u| {
      assert u[|u| - 1] == u[..k][k - 1];
    }
  }

  /** When pandas' trim leaves no Unicode space at either end, Python's trim stops at
      the same string. */
  lemma {:induction false} TrimAgrees(s: string)
    requires |Trim(s, Pandas)| > 0
    requires !IsUnicodeSpace(Trim(s, Pandas)[0])
    requires !IsUnicodeSpace(Trim(s, Pandas)[|Trim(s, Pandas)| - 1])
    ensures Trim(s, Python) == Trim(s, Pandas)
    decreases |s|
  {
    if |s| > 0 && IsSpace(s[0]) {
      TrimAgrees(s[1..]);
    } else if |s| > 0 && IsSpace(s[|s| - 1]) {
      assert !IsUnicodeSpace(s[0]);
      TrimAgrees(s[..|s| - 1]);
    }
  }

  lemma UnsignedPandasFloat(s: string)
    requires ParseUnsigned(s, Pandas).Some?
    ensures ParseUnsigned(s, Python) == ParseUnsigned(s, Pandas)
  {
    var k := DotIndex(s);
    PartsPandasFloat(s[..k], if k < |s| then s[k + 1..] else "");
  }

  lemma PartsPandasFloat(whole: string, frac: string)
    requires ParseParts(whole, frac, Pandas).Some?
    ensures ParseParts(whole, frac, Python) == ParseParts(whole, frac, Pandas)
  {
    DigitsAreRun(whole, Python);
    DigitsAreRun(frac, Python);
  }

  /** Decimal digits of a natural number, most significant first. */
  function FormatNat(n: nat): (r: string)
    ensures |r| > 0 && AllDigits(r)
  {
    if n < 10 then [('0' as int + n) as char]
    else FormatNat(n / 10) + [('0' as int + n % 10) as char]
  }

  lemma {:induction false} DigitsOfFormat(n: nat)
    ensures DigitsValue(FormatNat(n)) == n
  {
    var r := FormatNat(n);
    if n >= 10 {
      DigitsOfFormat(n / 10);
      assert r[..|r| - 1] == FormatNat(n / 10);
    }
  }

  lemma UnsignedOfFormat(n: nat, rd: Reader)
    ensures ParseUnsigned(FormatNat(n), rd) == Some(n as real)
  {
    var r := FormatNat(n);
    DigitsAreRun(r, rd);
    DotFree(r);
    UnsignedOfRun(r, rd);
    DigitsOfFormat(n);
  }

  /** Round trip: the digits of a natural number read back as that number, in either
      reader's syntax. */
  lemma FormatParses(n: nat, rd: Reader)
    ensures ParseNumber(FormatNat(n), rd) == Some(n as real)
  {
    var r := FormatNat(n);
    DigitsAreRun(r, rd);
    RunUntrimmed(r, rd);
    assert IsDigit(r[0]);
    UnsignedOfFormat(n, rd);
  }

  /** ... and with a minus sign in front, as its negation. */
  lemma FormatParsesNegated(n: nat, rd: Reader)
    ensures ParseNumber("-" + FormatNat(n), rd) == Some(-(n as real))
  {
    var r := FormatNat(n);
    var s := "-" + r;
    MinusUntrimmed(r, rd);
    assert s[0] == '-' && s[1..] == r;
    UnsignedOfFormat(n, rd);
  }

  lemma MinusUntrimmed(r: string, rd: Reader)
    requires AllDigits(r)
    ensures Trim("-" + r, rd) == "-" + r
  {
    var s := "-" + r;
    forall i | 0 <= i < |s| ensures !Blank(s[i], rd) {
      if i > 0 {
        assert s[i] == r[i - 1];
      }
    }
  }

  /** A blank string (the placeholder of a missing charge) never parses. */
  lemma {:induction false} BlankNeverParses(s: string, rd: Reader)
    requires forall i :: 0 <= i < |s| ==> Blank(s[i], rd)
    ensures ParseNumber(s, rd) == None
    decreases |s|
  {
    if |s| > 0 {
      assert Blank(s[0], rd);
      BlankNeverParses(s[1..], rd);
    }
  }

  /** Where the readers part: `float()` takes digit groups, which pandas' parser
      refuses ... */
  lemma UnderscoresOnlyForFloat()
    ensures ParseFloat("1_000") == Some(1000.0) && ParseDecimal("1_000") == None
  {
    ThousandGrouped();
    WholeRun("1_000", Python);
    UnderscoreRefused("1_000", 1);
  }

  /** An integer in the reader's syntax reads as the value of its digits. */
  lemma WholeRun(s: string, rd: Reader)
    requires |s| > 0 && IsDigit(s[0]) && DigitRun(s, rd)
    ensures ParseNumber(s, rd) == Some(DigitsValue(Ungroup(s)) as real)
  {
    RunUntrimmed(s, rd);
    DotFree(s);
    UnsignedOfRun(s, rd);
  }

  lemma RunUntrimmed(s: string, rd: Reader)
    requires DigitRun(s, rd)
    ensures Trim(s, rd) == s
  {
    assert forall i :: 0 <= i < |s| ==> IsDigit(s[i]) || s[i] == '_';
  }

  lemma UnsignedOfRun(s: string, rd: Reader)
    requires |s| > 0 && DigitRun(s, rd) && DotIndex(s) == |s|
    ensures ParseUnsigned(s, rd) == Some(DigitsValue(Ungroup(s)) as real)
  {
    assert s[..|s|] == s;
    WholePart(s, rd);
  }

  /** Pandas refuses an underscore anywhere in the digits. */
  lemma UnderscoreRefused(s: string, i: int)
    requires 0 <= i < |s| && s[i] == '_'
    requires forall j :: 0 <= j < |s| ==> IsDigit(s[j]) || s[j] == '_'
    ensures ParseDecimal(s) == None
  {
    assert Trim(s, Pandas) == s;
    DotFree(s);
    assert s[..|s|] == s;
    if 0 < |s| && (s[0] == '-' || s[0] == '+') {
    }
  }

  lemma DotFree(s: string)
    requires forall i :: 0 <= i < |s| ==> s[i] != '.'
    ensures DotIndex(s) == |s|
  {
  }

  lemma ThousandGrouped()
    ensures Grouped("1_000") && Ungroup("1_000") == "1000" && DigitsValue("1000") == 1000
  {
    ThousandSeparated();
    ThousandUngroups();
    ThousandValue();
  }

  lemma ThousandSeparated()
    ensures Grouped("1_000")
  {
    var g := "1_000";
    assert forall i :: 0 <= i < |g| && g[i] == '_' ==> i == 1;
    assert Separates(g, 1);
  }

  lemma ThousandUngroups()
    ensures Ungroup("1_000") == "1000"
  {
    var g := "1_000";
    assert AllDigits("000");
    assert g[1..] == "_000" && g[1..][1..] == "000";
  }

  lemma ThousandValue()
    ensures DigitsValue("1000") == 1000
  {
    assert "1000"[..3] == "100" && "100"[..2] == "10" && "10"[..1] == "1" && "1"[..0] == "";
  }

  /** ... and a no-break space around the number, which pandas' parser does not skip. */
  lemma NoBreakSpaceOnlyForFloat()
    ensures ParseFloat("\U{A0}5") == Some(5.0) && ParseDecimal("\U{A0}5") == None
  {
    var w := "\U{A0}5";
    assert Trim(w, Python) == "5" by {
      assert w[1..] == "5";
      NoBlank("5");
    }
    assert DotIndex("5") == 1 && "5"[..1] == "5";
    assert "5"[..0] == "";
    NoBlank(w);
    assert DotIndex(w) == 2 && w[..2] == w && !IsDigit(w[0]);
  }

  lemma NoBlank(s: string)
    requires forall i :: 0 <= i < |s| ==> IsDigit(s[i]) || s[i] == '_' || s[i] == '\U{A0}'
    ensures Trim(s, Pandas) == s
    ensures (forall i :: 0 <= i < |s| ==> s[i] != '\U{A0}') ==> Trim(s, Python) == s
  {
    assert forall i :: 0 <= i < |s| ==> !Blank(s[i], Pandas);
    if forall i :: 0 <= i < |s| ==> s[i] != '\U{A0}' {
      assert forall i :: 0 <= i < |s| ==> !Blank(s[i], Python);
    }
  }
}
