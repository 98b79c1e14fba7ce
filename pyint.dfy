/**
 * Python's `int(text)` on a `str` in base 10, as `IntegerInputDialog.apply`
 * uses it on the dialog's entry text, and `str(n)`, its inverse on integers.
 *
 * `int` accepts surrounding whitespace, one optional sign, and decimal digits
 * in which single underscores may separate digits ("1_000"); leading zeros are
 * allowed. Anything else raises `ValueError`, modelled as `None`.
 *
 * The whitespace `int` skips is narrower than `str.strip()`'s: of the ASCII
 * characters only tab, line feed, vertical tab, form feed, carriage return
 * and space; the separators U+001C to U+001F are not skipped. Non-ASCII
 * whitespace is skipped as `str.isspace()` defines it.
 *
 * Since Python 3.11 (and 3.10.7) `int` also raises `ValueError` on a numeral
 * with more than 4300 digits, and `str` raises on an integer that long.
 */
module PyInt {
  import opened Text

  /** The interpreter's default `sys.get_int_max_str_digits()`. */
  const MaxStrDigits: nat := 4300

  /** A character `int` skips before and after the numeral. */
  predicate IsIntSpace(c: char) {
    if (c as int) < 0x80 then c == ' ' || '\t' <= c <= '\r' else IsSpace(c)
  }

  /** Where the whitespace `int` skips at the start of `s[i..]` ends. */
  function LeadFrom(s: string, i: nat): (n: nat)
    requires i <= |s|
    ensures i <= n <= |s|
    ensures forall k :: i <= k < n ==> IsIntSpace(s[k])
    ensures n == |s| || !IsIntSpace(s[n])
    decreases |s| - i
  {
    if i < |s| && IsIntSpace(s[i]) then LeadFrom(s, i + 1) else i
  }

  /** Where the whitespace `int` skips at the end of `s[lo..j]` begins. */
  function TrailTo(s: string, lo: nat, j: nat): (n: nat)
    requires lo <= j <= |s|
    ensures lo <= n <= j
    ensures forall k :: n <= k < j ==> IsIntSpace(s[k])
    ensures n == lo || !IsIntSpace(s[n - 1])
    decreases j
  {
    if lo < j && IsIntSpace(s[j - 1]) then TrailTo(s, lo, j - 1) else j
  }

  /**
   * `r` is the slice of `s` that starts after its first `lead` characters, all
   * of them skipped whitespace, and is followed only by skipped whitespace;
   * neither end of `r` is such whitespace.
   */
  predicate IntStripOf(s: string, lead: int, r: string) {
    && 0 <= lead && lead + |r| <= |s|
    && r == s[lead..lead + |r|]
    && (forall k :: 0 <= k < lead ==> IsIntSpace(s[k]))
    && (forall k :: lead + |r| <= k < |s| ==> IsIntSpace(s[k]))
    && (r == [] || (!IsIntSpace(r[0]) && !IsIntSpace(r[|r| - 1])))
  }

  /** The text between the whitespace `int` skips at both ends. */
  function IntStrip(s: string): (r: string)
    ensures IntStripOf(s, LeadFrom(s, 0), r)
  {
    var a := LeadFrom(s, 0);
    var b := TrailTo(s, a, |s|);
    var r := s[a..b];
    assert r == [] || (!IsIntSpace(r[0]) && !IsIntSpace(r[|r| - 1])) by {
      if r != [] {
        assert r[0] == s[a] && r[|r| - 1] == s[b - 1];
      }
    }
    r
  }

  /** Text with no skipped whitespace at either end is its own `IntStrip`. */
  lemma IntStripKeeps(s: string)
    requires s != [] && !IsIntSpace(s[0]) && !IsIntSpace(s[|s| - 1])
    ensures IntStrip(s) == s
  {
    assert LeadFrom(s, 0) == 0;
    assert TrailTo(s, 0, |s|) == |s|;
    assert s[0..|s|] == s;
  }

  /** The digit part of an integer literal: digits, with single `_` only between two digits. */
  predicate IsDigitPart(s: string) {
    && |s| > 0
    && IsDigitRun(s)
    && s[0] != '_' && s[|s| - 1] != '_'
    && forall i, j :: 0 <= i < |s| && j == i + 1 < |s| && s[i] == '_' ==> s[j] != '_'
  }

  /** Only digits and underscores. */
  predicate IsDigitRun(s: string) {
    forall i :: 0 <= i < |s| ==> IsDigit(s[i]) || s[i] == '_'
  }

  function DigitValue(c: char): nat
    requires IsDigit(c)
  {
    (c as int) - ('0' as int)
  }

  function DigitChar(d: nat): (c: char)
    requires d < 10
    ensures IsDigit(c) && DigitValue(c) == d
  {
    (('0' as int) + d) as char
  }

  /** The value of a run of digits and underscores; underscores carry no value. */
  function DigitsValue(s: string): nat
    requires IsDigitRun(s)
    decreases |s|
  {
    if s == [] then 0
    else if s[|s| - 1] == '_' then DigitsValue(s[..|s| - 1])
    else DigitsValue(s[..|s| - 1]) * 10 + DigitValue(s[|s| - 1])
  }

  /** The number of digits in `s`, which is what the 4300-digit limit counts (underscores are not digits). */
  function DigitCount(s: string): (n: nat)
    ensures n <= |s|
    decreases |s|
  {
    if s == [] then 0
    else DigitCount(s[..|s| - 1]) + (if IsDigit(s[|s| - 1]) then 1 else 0)
  }

  /**
   * `int(text)`, or `None` where Python raises `ValueError`. Every value it
   * accepts has at most 4300 digits, so `str` can print it.
   */
  function ParseInt(text: string): (r: Option<int>)
    ensures r.Some? ==> StrDefined(r.value)
  {
    ParseNumeral(IntStrip(text))
  }

  /** `int` on the text between the skipped whitespace: an optional sign, then digits with single `_` between them. */
  function ParseNumeral(t: string): (r: Option<int>)
    ensures r.Some? ==> StrDefined(r.value)
  {
    var signed := t != [] && (t[0] == '+' || t[0] == '-');
    var part := if signed then t[1..] else t;
    if IsDigitPart(part) && DigitCount(part) <= MaxStrDigits then
      var magnitude: int := DigitsValue(part);
      DigitsValueBelow(part);
      Pow10Monotone(DigitCount(part), MaxStrDigits);
      Some(if signed && t[0] == '-' then -magnitude else magnitude)
    else None
  }

  function Pow10(k: nat): (p: nat)
    ensures p >= 1
  {
    if k == 0 then 1 else 10 * Pow10(k - 1)
  }

  /** Powers of ten grow with the exponent. */
  lemma {:induction false} Pow10Monotone(i: nat, j: nat)
    requires i <= j
    ensures Pow10(i) <= Pow10(j)
    decreases j
  {
    if i < j {
      Pow10Monotone(i, j - 1);
    }
  }

  /** A run with `n` digits is worth less than `10^n`. */
  lemma {:induction false} DigitsValueBelow(s: string)
    requires IsDigitRun(s)
    ensures DigitsValue(s) < Pow10(DigitCount(s))
    decreases |s|
  {
    if s != [] {
      var p := s[..|s| - 1];
      DigitsValueBelow(p);
      if s[|s| - 1] != '_' {
        var v := DigitsValue(p);
        var c := DigitCount(p);
        assert v + 1 <= Pow10(c);
        assert v * 10 + 10 <= Pow10(c) * 10;
      }
    }
  }

  /** A number below `10^k` prints with at most `k` digits (one, for zero). */
  lemma {:induction false} DecimalStringFits(n: nat, k: nat)
    requires n < Pow10(k)
    ensures |DecimalString(n)| <= if k == 0 then 1 else k
    decreases n
  {
    if n >= 10 {
      assert k >= 2;
      assert n / 10 < Pow10(k - 1);
      DecimalStringFits(n / 10, k - 1);
    }
  }

  /** `int` refuses the ASCII separators U+001C to U+001F around a numeral, which `str.strip()` would remove. */
  lemma ParseIntRefusesSeparator(digits: string)
    requires IsDigits(digits)
    ensures ParseInt(['\U{1C}'] + digits) == None
    ensures ParseInt(digits + ['\U{1F}']) == None
  {
    var a := ['\U{1C}'] + digits;
    assert !IsIntSpace(a[0]) && !IsIntSpace(a[|a| - 1]);
    IntStripKeeps(a);
    ParseNumeralRefusesEnd(a);
    var b := digits + ['\U{1F}'];
    assert !IsIntSpace(b[0]) && !IsIntSpace(b[|b| - 1]);
    IntStripKeeps(b);
    ParseNumeralRefusesEnd(b);
  }

  /** A text that starts with neither a sign nor a digit, or does not end in a digit, is no numeral. */
  lemma ParseNumeralRefusesEnd(t: string)
    requires t != []
    requires (!IsDigit(t[0]) && t[0] != '+' && t[0] != '-') || !IsDigit(t[|t| - 1])
    ensures ParseNumeral(t) == None
  {
    if !IsDigit(t[0]) && t[0] != '+' && t[0] != '-' {
      assert t[0] == '_' || !IsDigitRun(t);
    } else {
      var part := if t[0] == '+' || t[0] == '-' then t[1..] else t;
      if part != [] {
        assert part[|part| - 1] == t[|t| - 1];
      }
    }
  }

  /** A numeral of more than 4300 digits is refused, whatever its value. */
  lemma {:induction false} ParseIntRefusesLong(digits: string)
    requires IsDigits(digits) && |digits| > MaxStrDigits
    ensures ParseInt(digits) == None
  {
    IntStripKeeps(digits);
    DigitCountOfDigits(digits);
  }

  /** In a run of digits every character counts. */
  lemma {:induction false} DigitCountOfDigits(s: string)
    requires forall i :: 0 <= i < |s| ==> IsDigit(s[i])
    ensures DigitCount(s) == |s|
    decreases |s|
  {
    if s != [] {
      DigitCountOfDigits(s[..|s| - 1]);
    }
  }

  /** `str(n)` for a natural number: its decimal digits, most significant first, without leading zeros. */
  function DecimalString(n: nat): (s: string)
    ensures IsDigits(s)
    ensures DigitsValue(s) == n
    decreases n
  {
    if n < 10 then [DigitChar(n)]
    else
      var prefix := DecimalString(n / 10);
      var s := prefix + [DigitChar(n % 10)];
      assert s[..|s| - 1] == prefix;
      s
  }

  /** `str(v)` for any integer. */
  function IntToString(v: int): string {
    if v < 0 then "-" + DecimalString(-v) else DecimalString(v)
  }

  /**
   * `str(v)` does not raise: `v` lies strictly between `-10^4300` and
   * `10^4300`, which `StrDefinedDigits` shows is the same as its decimal text
   * having at most 4300 digits.
   */
  predicate StrDefined(v: int) {
    -(Pow10(MaxStrDigits) as int) < v < Pow10(MaxStrDigits)
  }

  /** The bound in `StrDefined` is the digit limit on the decimal text. */
  lemma StrDefinedDigits(v: int)
    ensures StrDefined(v) <==> |DecimalString(if v < 0 then -v else v)| <= MaxStrDigits
  {
    var n := if v < 0 then -v else v;
    var d := DecimalString(n);
    DigitCountOfDigits(d);
    DigitsValueBelow(d);
    if |d| <= MaxStrDigits {
      Pow10Monotone(|d|, MaxStrDigits);
    }
    if StrDefined(v) {
      DecimalStringFits(n, MaxStrDigits);
    }
  }

  /** Every integer of at most four digits can be printed. */
  lemma StrDefinedSmall(v: int)
    requires -9999 <= v <= 9999
    ensures StrDefined(v)
  {
    assert Pow10(4) == 10000 by {
      assert Pow10(1) == 10 && Pow10(2) == 100 && Pow10(3) == 1000;
    }
    Pow10Monotone(4, MaxStrDigits);
  }

  /** `int(str(v)) == v`: the decimal text of every printable integer parses back to it. */
  lemma ParseIntToString(v: int)
    requires StrDefined(v)
    ensures ParseInt(IntToString(v)) == Some(v)
  {
    var s := IntToString(v);
    assert !IsIntSpace(s[0]) && !IsIntSpace(s[|s| - 1]);
    IntStripKeeps(s);
    ParseNumeralToString(v);
  }

  /** The decimal text of a printable integer, signed or not, reads back as that integer. */
  lemma ParseNumeralToString(v: int)
    requires StrDefined(v)
    ensures ParseNumeral(IntToString(v)) == Some(v)
  {
    var s := IntToString(v);
    var d := DecimalString(if v < 0 then -v else v);
    StrDefinedDigits(v);
    assert IsDigitPart(d);
    DigitCountOfDigits(d);
    if v < 0 {
      assert s[1..] == d;
    } else {
      assert s[0] != '+' && s[0] != '-';
    }
  }

  /** Whatever `int` accepts, printing the value and parsing the print gives the same value. */
  lemma ParseIntNormalForm(text: string)
    requires ParseInt(text).Some?
    ensures ParseInt(IntToString(ParseInt(text).value)) == ParseInt(text)
  {
    ParseIntToString(ParseInt(text).value);
  }

  /** Text that parses has a digit in it: `int` never accepts a blank entry or a lone sign. */
  lemma ParsedTextHasDigit(text: string)
    requires ParseInt(text).Some?
    ensures exists i :: 0 <= i < |text| && IsDigit(text[i])
  {
    var t := IntStrip(text);
    var lead := LeadFrom(text, 0);
    assert IntStripOf(text, lead, t);
    var k := NumeralDigit(t);
    assert text[lead + k] == t[k];
  }

  /** Where a numeral has a digit: first, or after its sign. */
  function NumeralDigit(t: string): (k: nat)
    requires ParseNumeral(t).Some?
    ensures k < |t| && IsDigit(t[k])
  {
    var k := if t[0] == '+' || t[0] == '-' then 1 else 0;
    assert t[k..][0] == t[k];
    k
  }
}
