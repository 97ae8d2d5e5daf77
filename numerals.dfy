/**
 * Positional numerals as the handler meets them: Python's `int(text)` on the
 * request's price, and `format(n, '064x')` on the ledger amounts.
 */
module Numerals {
  import opened Wrappers

  function Pow(b: nat, k: nat): nat
  {
    if k == 0 then 1 else b * Pow(b, k - 1)
  }

  lemma {:induction false} PowBaseMonotone(a: nat, b: nat, k: nat)
    requires a <= b
    ensures Pow(a, k) <= Pow(b, k)
  {
    if k > 0 {
      PowBaseMonotone(a, b, k - 1);
      assert a * Pow(a, k - 1) <= b * Pow(a, k - 1) <= b * Pow(b, k - 1);
    }
  }

  lemma {:induction false} PowExponentMonotone(b: nat, i: nat, j: nat)
    requires 1 <= b && i <= j
    ensures 1 <= Pow(b, i) <= Pow(b, j)
    decreases j
  {
    if i < j {
      PowExponentMonotone(b, i, j - 1);
      assert Pow(b, j - 1) <= b * Pow(b, j - 1);
    } else if i > 0 {
      PowExponentMonotone(b, i - 1, j - 1);
    }
  }

  /** The character of digit `d`; letters are lower-case, as `'x'` formatting writes them. */
  function DigitChar(d: nat): char
    requires d < 16
  {
    if d < 10 then ('0' as int + d) as char else ('a' as int + d - 10) as char
  }

  function DigitValue(c: char): nat
  {
    if '0' <= c <= '9' then c as int - '0' as int
    else if 'a' <= c <= 'f' then c as int - 'a' as int + 10
    else 0
  }

  predicate IsDigit(c: char, base: nat)
  {
    ('0' <= c <= '9' || 'a' <= c <= 'f') && DigitValue(c) < base
  }

  predicate AllDigits(s: string, base: nat)
  {
    forall i :: 0 <= i < |s| ==> IsDigit(s[i], base)
  }

  /** The number a string of digits denotes, most significant digit first. */
  function Value(s: string, base: nat): nat
    decreases |s|
  {
    if s == [] then 0 else Value(s[..|s| - 1], base) * base + DigitValue(s[|s| - 1])
  }

  /** A single digit written out reads back as itself, and only zero is written `0`. */
  lemma DigitRoundTrip(d: nat, base: nat)
    requires d < base <= 16
    ensures DigitValue(DigitChar(d)) == d && IsDigit(DigitChar(d), base)
    ensures DigitChar(d) == '0' <==> d == 0
  {
  }

  /** Appending a digit multiplies the value by the base and adds the digit. */
  lemma AppendDigitValue(s: string, c: char, base: nat)
    ensures Value(s + [c], base) == Value(s, base) * base + DigitValue(c)
  {
    assert (s + [c])[..|s|] == s;
  }

  lemma SplitByBase(n: nat, base: nat)
    requires 2 <= base <= n
    ensures n == (n / base) * base + n % base && 1 <= n / base < n && n % base < base
  {
  }

  /** The shortest digit string of `n`: what Python's `format(n, 'x')` or `str(n)` writes. */
  function Render(n: nat, base: nat): (s: string)
    requires 2 <= base <= 16
    ensures 1 <= |s| && AllDigits(s, base) && Value(s, base) == n
    ensures s[0] == '0' ==> n == 0
    ensures n == 0 ==> s == "0"
    decreases n
  {
    if n < base then
      DigitRoundTrip(n, base);
      [DigitChar(n)]
    else
      SplitByBase(n, base);
      var prefix := Render(n / base, base);
      var last := DigitChar(n % base);
      DigitRoundTrip(n % base, base);
      AppendDigitValue(prefix, last, base);
      prefix + [last]
  }

  function Zeros(k: nat): (z: string)
    ensures |z| == k && forall i :: 0 <= i < k ==> z[i] == '0'
  {
    seq(k, _ => '0')
  }

  lemma {:induction false} ZerosValue(k: nat, base: nat)
    ensures Value(Zeros(k), base) == 0
  {
    if k > 0 {
      assert Zeros(k)[..k - 1] == Zeros(k - 1);
      ZerosValue(k - 1, base);
    }
  }

  /** Leading zeros do not change the value of a numeral. */
  lemma {:induction false} LeadingZerosValue(k: nat, s: string, base: nat)
    ensures Value(Zeros(k) + s, base) == Value(s, base)
  {
    if s == [] {
      assert Zeros(k) + s == Zeros(k);
      ZerosValue(k, base);
    } else {
      var t := Zeros(k) + s;
      assert t[..|t| - 1] == Zeros(k) + s[..|s| - 1];
      LeadingZerosValue(k, s[..|s| - 1], base);
    }
  }

  lemma DivBelow(n: nat, b: nat, p: nat)
    requires 0 < b && n < b * p
    ensures n / b < p
  {
  }

  /** A number below `base^k` needs at most `k` digits. */
  lemma {:induction false} RenderLength(n: nat, base: nat, k: nat)
    requires 2 <= base <= 16 && 1 <= k
    ensures n < Pow(base, k) ==> |Render(n, base)| <= k
    decreases n
  {
    if n >= base && n < Pow(base, k) {
      DivBelow(n, base, Pow(base, k - 1));
      RenderLength(n / base, base, k - 1);
    }
  }

  function PadLeft(s: string, width: nat): (r: string)
  {
    if |s| < width then Zeros(width - |s|) + s else s
  }

  /**
   * Python's `format(n, '064x')` for a non-negative `n`: lower-case hex digits,
   * zero-padded on the left to at least 64 characters, and never cut.
   */
  function Format064x(n: nat): (r: string)
    ensures |r| >= 64 && AllDigits(r, 16) && Value(r, 16) == n
    ensures n < Pow(16, 64) ==> |r| == 64
    ensures |r| > 64 ==> r == Render(n, 16)
  {
    var digits := Render(n, 16);
    RenderLength(n, 16, 64);
    if |digits| < 64 then
      LeadingZerosValue(64 - |digits|, digits, 16);
      PadLeft(digits, 64)
    else
      PadLeft(digits, 64)
  }

  // ---- Python's int(text) on a str ----

  /** The ASCII white space that `int()` skips around a numeral. */
  predicate IsSpace(c: char)
  {
    c == ' ' || c == '\t' || c == '\n' || c == '\r' || c == 11 as char || c == 12 as char
  }

  /** `s` without its leading white space. */
  function TrimStart(s: string): (r: string)
    ensures |r| <= |s| && r == s[|s| - |r|..]
    ensures forall i :: 0 <= i < |s| - |r| ==> IsSpace(s[i])
    ensures |r| > 0 ==> !IsSpace(r[0])
  {
    if |s| > 0 && IsSpace(s[0]) then TrimStart(s[1..]) else s
  }

  /** `s` without its trailing white space. */
  function TrimEnd(s: string): (r: string)
    ensures |r| <= |s| && r == s[..|r|]
    ensures forall i :: |r| <= i < |s| ==> IsSpace(s[i])
    ensures |r| > 0 ==> !IsSpace(r[|r| - 1])
  {
    if |s| > 0 && IsSpace(s[|s| - 1]) then TrimEnd(s[..|s| - 1]) else s
  }

  /** `s` without the white space `int()` skips at either end (ASCII only). */
  function Strip(s: string): (r: string)
  {
    TrimEnd(TrimStart(s))
  }

  /** Stripping keeps every character that is not white space, in place. */
  lemma StripKeeps(s: string, i: nat)
    requires i < |s| && !IsSpace(s[i])
    ensures exists j :: 0 <= j < |Strip(s)| && Strip(s)[j] == s[i]
  {
    var t := TrimStart(s);
    var j := i - (|s| - |t|);
    assert 0 <= j < |t| && t[j] == s[i];
    var u := TrimEnd(t);
    assert j < |u| && u[j] == s[i];
    assert Strip(s) == u;
  }

  /**
   * Python's `int(text)` for a str: surrounding white space, an optional
   * sign, then one or more decimal digits. `None` stands for ValueError.
   */
  function ParseInt(text: string): (r: Option<int>)
    ensures var t := Strip(text);
      r.Some? <==> |t| > 0 && (AllDigits(t, 10) || ((t[0] == '+' || t[0] == '-') && |t| > 1 && AllDigits(t[1..], 10)))
    ensures var t := Strip(text);
      r.Some? && t[0] == '-' ==> r.value + Value(t[1..], 10) == 0
    ensures var t := Strip(text);
      r.Some? && t[0] != '-' ==> r.value >= 0 && r.value == Value(if t[0] == '+' then t[1..] else t, 10)
  {
    var t := Strip(text);
    if |t| > 0 && (t[0] == '+' || t[0] == '-') then
      var digits := t[1..];
      if |digits| > 0 && AllDigits(digits, 10) then
        var magnitude: int := Value(digits, 10);
        Some(if t[0] == '-' then -magnitude else magnitude)
      else None
    else if |t| > 0 && AllDigits(t, 10) then Some(Value(t, 10))
    else None
  }

  /** Python's `str(n)`. */
  function DecimalText(n: int): (s: string)
    ensures |s| > 0
  {
    if n < 0 then "-" + Render(-n, 10) else Render(n, 10)
  }

  /** A string of decimal digits is its own `strip()` and parses to its value. */
  lemma DigitsParse(digits: string)
    requires |digits| > 0 && AllDigits(digits, 10)
    ensures Strip(digits) == digits
    ensures ParseInt(digits) == Some(Value(digits, 10))
  {
    assert IsDigit(digits[0], 10) && IsDigit(digits[|digits| - 1], 10);
    assert !IsSpace(digits[0]) && !IsSpace(digits[|digits| - 1]);
    assert TrimStart(digits) == digits;
    assert TrimEnd(digits) == digits;
  }

  /** Every integer written out in decimal parses back to itself. */
  lemma DecimalTextParses(n: int)
    ensures ParseInt(DecimalText(n)) == Some(n)
  {
    if n < 0 {
      var digits := Render(-n, 10);
      var s := "-" + digits;
      assert s[0] == '-' && s[1..] == digits;
      assert IsDigit(digits[|digits| - 1], 10);
      assert s[|s| - 1] == digits[|digits| - 1];
      assert TrimStart(s) == s;
      assert Strip(s) == s;
    } else {
      DigitsParse(Render(n, 10));
    }
  }

  /** A numeral written with a decimal point is not an integer to Python: ValueError. */
  lemma PointNeverParses(text: string)
    requires '.' in text
    ensures ParseInt(text) == None
  {
    var t := Strip(text);
    var i :| 0 <= i < |text| && text[i] == '.';
    StripKeeps(text, i);
    var j :| 0 <= j < |t| && t[j] == '.';
    assert !IsDigit(t[j], 10);
    if t[0] == '+' || t[0] == '-' {
      assert t[1..][j - 1] == '.';
    }
  }
}
