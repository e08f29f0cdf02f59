/**
 * Number formatting and parsing as the front end uses them: `Math.round`,
 * the decimal text of an integer, `parseFloat` on the characters a number
 * can be written with, and stripping every other character out of a value.
 */
module JsNumbers {
  import opened JsCore

  /** `Math.round(x)`: the nearest integer, halves rounded up. */
  function Round(x: real): (n: int)
    ensures n as real <= x + 0.5 < n as real + 1.0
  {
    (x + 0.5).Floor
  }

  predicate IsDigit(c: char)
  {
    '0' <= c <= '9'
  }

  predicate AllDigits(s: string)
  {
    forall i :: 0 <= i < |s| ==> IsDigit(s[i])
  }

  function DigitChar(d: nat): (c: char)
    requires d < 10
    ensures IsDigit(c)
  {
    ('0' as int + d) as char
  }

  /** The decimal text of a natural number, without leading zeros. */
  function NatToString(n: nat): (s: string)
    ensures |s| >= 1 && AllDigits(s)
    ensures s[0] == '0' ==> n == 0
  {
    if n < 10 then [DigitChar(n)] else NatToString(n / 10) + [DigitChar(n % 10)]
  }

  /** `String(i)` for an integer. */
  function IntToString(i: int): string
  {
    if i < 0 then "-" + NatToString(-i) else NatToString(i)
  }

  /** The value of a string of decimal digits. */
  function DigitsValue(s: string): nat
    requires AllDigits(s)
  {
    if |s| == 0 then 0 else DigitsValue(s[..|s| - 1]) * 10 + (s[|s| - 1] as int - '0' as int)
  }

  lemma {:induction false} DigitsValueOfNatToString(n: nat)
    ensures DigitsValue(NatToString(n)) == n
  {
    if n >= 10 {
      DigitsValueOfNatToString(n / 10);
      var s := NatToString(n);
      assert s[..|s| - 1] == NatToString(n / 10);
    }
  }

  /** The length of the run of digits that `s` starts with. */
  function LeadingDigits(s: string): (k: nat)
    ensures k <= |s| && AllDigits(s[..k])
    ensures k < |s| ==> !IsDigit(s[k])
  {
    if |s| == 0 || !IsDigit(s[0]) then 0
    else
      var k := 1 + LeadingDigits(s[1..]);
      assert s[..k] == [s[0]] + s[1..][..k - 1];
      k
  }

  function Pow10(n: nat): (p: nat)
    ensures p >= 1
  {
    if n == 0 then 1 else 10 * Pow10(n - 1)
  }

  /**
   * `parseFloat(s)` on text made of digits, `.` and `-`: an optional minus
   * sign, then the longest decimal literal `d*[.d*]` with at least one digit;
   * NaN when there is none. Whatever follows the literal is ignored.
   */
  function ParseFloat(s: string): (n: Number)
    ensures |s| == 0 ==> n == NaN
    ensures |s| > 0 && !IsDigit(s[0]) && s[0] != '-' && s[0] != '.' ==> n == NaN
    ensures |s| > 0 && AllDigits(s) ==> n == Finite(DigitsValue(s) as real)
  {
    var negative := |s| > 0 && s[0] == '-';
    var body := if negative then s[1..] else s;
    var k := LeadingDigits(body);
    assert |s| > 0 && AllDigits(s) ==> k == |body| && body[..k] == body;
    var frac := if k < |body| && body[k] == '.' then body[k + 1..][..LeadingDigits(body[k + 1..])] else "";
    if k == 0 && |frac| == 0 then NaN
    else
      var magnitude := DigitsValue(body[..k]) as real + DigitsValue(frac) as real / Pow10(|frac|) as real;
      Finite(if negative then -magnitude else magnitude)
  }

  /** Parsing the text of an integer gives the integer back. */
  lemma IntToStringParses(i: int)
    ensures ParseFloat(IntToString(i)) == Finite(i as real)
  {
    var digits := NatToString(if i < 0 then -i else i);
    DigitsValueOfNatToString(if i < 0 then -i else i);
    var s := IntToString(i);
    var body := if |s| > 0 && s[0] == '-' then s[1..] else s;
    assert body == digits;
    assert LeadingDigits(body) == |digits|;
    assert body[..|digits|] == digits;
  }

  /** The characters `Number(text)` trims: white space and line terminators. */
  predicate IsJsSpace(c: char)
  {
    c == ' ' || c == '\t' || c == '\n' || c == '\r' || c as int == 0x0B || c as int == 0x0C
    || c as int == 0xA0 || c as int == 0x1680 || 0x2000 <= c as int <= 0x200A || c as int == 0x2028
    || c as int == 0x2029 || c as int == 0x202F || c as int == 0x205F || c as int == 0x3000 || c as int == 0xFEFF
  }

  /** `s` without its leading and trailing white space. */
  function Trim(s: string): (t: string)
    ensures |t| <= |s|
    ensures (forall i :: 0 <= i < |s| ==> IsJsSpace(s[i])) <==> t == ""
    ensures |s| > 0 && !IsJsSpace(s[0]) && !IsJsSpace(s[|s| - 1]) ==> t == s
  {
    if |s| == 0 then ""
    else if IsJsSpace(s[0]) then Trim(s[1..])
    else if IsJsSpace(s[|s| - 1]) then Trim(s[..|s| - 1])
    else s
  }

  /**
   * `Number(text)`, which `<` and `>` apply to a string compared with a
   * number: blank text is 0; an optional sign and a decimal literal
   * (`d+`, `d+.d*` or `.d+`) filling the trimmed text is its value;
   * anything else is NaN.
   */
  function StringToNumber(s: string): (n: Number)
    ensures (forall i :: 0 <= i < |s| ==> IsJsSpace(s[i])) ==> n == Finite(0.0)
    ensures n.Finite? && Trim(s) != "" ==> IsDigit(Trim(s)[|Trim(s)| - 1]) || Trim(s)[|Trim(s)| - 1] == '.'
  {
    var t := Trim(s);
    if t == "" then Finite(0.0)
    else
      var signed := t[0] == '-' || t[0] == '+';
      var body := if signed then t[1..] else t;
      var k := LeadingDigits(body);
      if 0 < k == |body| then
        assert body[..k] == body;
        Finite(if t[0] == '-' then -(DigitsValue(body) as real) else DigitsValue(body) as real)
      else if k < |body| && body[k] == '.' then
        var rest := body[k + 1..];
        var f := LeadingDigits(rest);
        if f == |rest| && (k > 0 || f > 0) then
          assert rest[..f] == rest;
          var magnitude := DigitsValue(body[..k]) as real + DigitsValue(rest) as real / Pow10(f) as real;
          assert t[|t| - 1] == (if f > 0 then rest[f - 1] else body[k]);
          Finite(if t[0] == '-' then -magnitude else magnitude)
        else NaN
      else NaN
  }

  /** The text of an integer, as `Number` reads it, is the integer. */
  lemma IntToStringToNumber(i: int)
    ensures StringToNumber(IntToString(i)) == Finite(i as real)
  {
    var digits := NatToString(if i < 0 then -i else i);
    DigitsValueOfNatToString(if i < 0 then -i else i);
    var s := IntToString(i);
    assert Trim(s) == s;
    var body := if s[0] == '-' || s[0] == '+' then s[1..] else s;
    assert body == digits;
  }

  /** Characters kept by `replace(/[^0-9.-]/g, '')`. */
  predicate IsNumericChar(c: char)
  {
    IsDigit(c) || c == '.' || c == '-'
  }

  /** `s.replace(/[^0-9.-]/g, '')`: every character other than a digit, `.` or `-` removed. */
  function StripNonNumeric(s: string): (r: string)
    ensures |r| <= |s|
    ensures forall i :: 0 <= i < |r| ==> IsNumericChar(r[i])
    ensures (forall i :: 0 <= i < |s| ==> IsNumericChar(s[i])) ==> r == s
  {
    if |s| == 0 then ""
    else
      var rest := StripNonNumeric(s[1..]);
      if IsNumericChar(s[0]) then [s[0]] + rest else rest
  }

  /** Stripping a value that is already stripped changes nothing. */
  lemma StripIdempotent(s: string)
    ensures StripNonNumeric(StripNonNumeric(s)) == StripNonNumeric(s)
  {
  }
}
