/** The two JavaScript conversions between numbers and text that the
    medication form relies on: `parseInt(s)` (radix left unspecified) when the
    form is submitted, and `Number.prototype.toString` on integers when a
    medication's numbers are put back into the form or into a label.
    A `NaN` result of `parseInt` is `None`. */
module JsText {
  import opened MedTypes

  /** The characters `String.prototype.trim` and `parseInt` skip: ECMAScript
      WhiteSpace and LineTerminator code points. */
  predicate IsJsWhitespace(c: char)
  {
    c == '\t' || c == '\n' || c == '\U{000B}' || c == '\U{000C}' || c == '\r' || c == ' '
    || c == '\U{00A0}' || c == '\U{1680}' || ('\U{2000}' <= c <= '\U{200A}')
    || c == '\U{2028}' || c == '\U{2029}' || c == '\U{202F}' || c == '\U{205F}'
    || c == '\U{3000}' || c == '\U{FEFF}'
  }

  /** `s` without its leading whitespace. */
  function TrimStart(s: string): (t: string)
    ensures |t| <= |s| && t == s[|s| - |t|..]
    ensures t == [] || !IsJsWhitespace(t[0])
    ensures forall i :: 0 <= i < |s| - |t| ==> IsJsWhitespace(s[i])
  {
    if s != [] && IsJsWhitespace(s[0]) then TrimStart(s[1..]) else s
  }

  /** `!s.trim()`: the string is empty once trimmed. */
  predicate IsBlank(s: string)
  {
    TrimStart(s) == []
  }

  lemma IsBlankIffAllWhitespace(s: string)
    ensures IsBlank(s) <==> forall i :: 0 <= i < |s| ==> IsJsWhitespace(s[i])
  {
  }

  /** The value of `c` as a digit in `radix` (2..36), if it is one. */
  function DigitValue(c: char, radix: nat): (r: Option<nat>)
    ensures r.Some? ==> r.value < radix
  {
    var d: int :=
      if '0' <= c <= '9' then (c as int) - ('0' as int)
      else if 'a' <= c <= 'z' then (c as int) - ('a' as int) + 10
      else if 'A' <= c <= 'Z' then (c as int) - ('A' as int) + 10
      else -1;
    if 0 <= d < radix then Some(d) else None
  }

  predicate AllDigits(s: string, radix: nat)
  {
    forall i :: 0 <= i < |s| ==> DigitValue(s[i], radix).Some?
  }

  /** How many characters at the front of `s` are digits in `radix`. */
  function LeadingDigits(s: string, radix: nat): (n: nat)
    ensures n <= |s| && AllDigits(s[..n], radix)
    ensures n < |s| ==> DigitValue(s[n], radix).None?
  {
    if s != [] && DigitValue(s[0], radix).Some? then
      var n := 1 + LeadingDigits(s[1..], radix);
      assert forall i :: 1 <= i < n ==> s[..n][i] == s[1..][..n - 1][i - 1];
      n
    else 0
  }

  /** The number a string of digits denotes, most significant first. */
  function DigitsValue(s: string, radix: nat): nat
    requires AllDigits(s, radix)
  {
    if s == [] then 0
    else DigitsValue(s[..|s| - 1], radix) * radix + DigitValue(s[|s| - 1], radix).value
  }

  /** `s` with a leading `-` or `+` split off, as a factor and the rest. */
  function SignOf(t: string): (int, string)
  {
    if t != [] && t[0] == '-' then (-1, t[1..])
    else if t != [] && t[0] == '+' then (1, t[1..])
    else (1, t)
  }

  /** A `0x`/`0X` prefix selects radix 16, anything else radix 10. */
  function RadixOf(u: string): (nat, string)
  {
    if |u| >= 2 && u[0] == '0' && (u[1] == 'x' || u[1] == 'X') then (16, u[2..]) else (10, u)
  }

  /** `parseInt(s)`: skip leading whitespace, read an optional sign and an
      optional hexadecimal prefix, then the longest run of digits; no digit
      at all gives `NaN`. */
  function ParseInt(s: string): (r: Option<int>)
  {
    var (sign, u) := SignOf(TrimStart(s));
    var (radix, v) := RadixOf(u);
    var n := LeadingDigits(v, radix);
    if n == 0 then None else Some(sign * DigitsValue(v[..n], radix))
  }

  /** `x || d` on a parsed number: `NaN` and `0` are falsy and give `d`. */
  function OrDefault(r: Option<int>, d: int): (v: int)
    ensures r.Some? && r.value != 0 ==> v == r.value
    ensures r.None? || r.value == 0 ==> v == d
    ensures v == 0 ==> d == 0
  {
    match r
    case Some(x) => if x == 0 then d else x
    case None => d
  }

  function DecimalDigit(d: nat): (c: char)
    requires d < 10
    ensures DigitValue(c, 10) == Some(d)
  {
    "0123456789"[d]
  }

  /** Decimal digits of `n`, without leading zeros. */
  function NatToDecimal(n: nat): (s: string)
    ensures s != [] && AllDigits(s, 10)
    ensures s[0] != '-' && s[0] != '+' && !IsJsWhitespace(s[0])
    ensures s[0] == '0' <==> n == 0
  {
    if n < 10 then [DecimalDigit(n)]
    else
      var s := NatToDecimal(n / 10) + [DecimalDigit(n % 10)];
      assert s[0] == NatToDecimal(n / 10)[0];
      s
  }

  /** `String(i)` for an integer `i`. */
  function IntToString(i: int): string
  {
    if i < 0 then "-" + NatToDecimal(-i) else NatToDecimal(i)
  }

  lemma {:induction false} DigitsValueOfDecimal(n: nat)
    ensures DigitsValue(NatToDecimal(n), 10) == n
  {
    var s := NatToDecimal(n);
    if n >= 10 {
      DigitsValueOfDecimal(n / 10);
      assert s[..|s| - 1] == NatToDecimal(n / 10);
    }
  }

  lemma LeadingDigitsOfAllDigits(s: string, radix: nat)
    requires AllDigits(s, radix)
    ensures LeadingDigits(s, radix) == |s|
  {
  }

  /** Reading back what was written: `parseInt(String(i)) === i`. */
  lemma ParseIntOfIntToString(i: int)
    ensures ParseInt(IntToString(i)) == Some(i)
  {
    var s := IntToString(i);
    var m: nat := if i < 0 then -i else i;
    var d := NatToDecimal(m);
    assert TrimStart(s) == s;
    assert SignOf(s) == (if i < 0 then -1 else 1, d);
    assert DigitValue(d[0], 10).Some?;
    if |d| >= 2 { assert DigitValue(d[1], 10).Some?; }
    assert RadixOf(d) == (10, d);
    LeadingDigitsOfAllDigits(d, 10);
    assert d[..|d|] == d;
    DigitsValueOfDecimal(m);
  }

  /** Writing integers out never confuses two of them. */
  lemma IntToStringInjective(i: int, j: int)
    requires IntToString(i) == IntToString(j)
    ensures i == j
  {
    ParseIntOfIntToString(i);
    ParseIntOfIntToString(j);
  }
}
