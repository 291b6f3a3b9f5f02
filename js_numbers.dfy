/**
  The JavaScript number operations the form applies to its text fields: `parseInt` and
  `parseFloat` on a string, multiplication and addition, and the `x || 0` fallback.
  A number is a mathematical real or NaN; IEEE-754 rounding and the infinities are not modelled.
*/
module JsNumbers {
  import opened Wrappers
  import opened Text

  /** A JavaScript number: `Some(x)` for a finite value `x`, `None` for NaN. */
  type Num = Option<real>

  /** `a * b`: NaN when either operand is NaN. */
  function Mul(a: Num, b: Num): (r: Num)
    ensures r.Some? <==> a.Some? && b.Some?
  {
    if a.Some? && b.Some? then Some(a.value * b.value) else None
  }

  /** `a + b`: NaN when either operand is NaN. */
  function Add(a: Num, b: Num): (r: Num)
    ensures r.Some? <==> a.Some? && b.Some?
  {
    if a.Some? && b.Some? then Some(a.value + b.value) else None
  }

  /** `x || 0` on a number: NaN (and zero) become zero, every other value stays. */
  function OrZero(x: Num): (r: real)
    ensures x.None? ==> r == 0.0
    ensures x.Some? ==> r == x.value
  {
    if x.Some? && x.value != 0.0 then x.value else 0.0
  }

  /** An integer as a number. */
  function FromInt(n: Option<int>): (r: Num)
    ensures r.Some? <==> n.Some?
    ensures n.Some? ==> r.value == n.value as real
  {
    if n.Some? then Some(n.value as real) else None
  }

  /** `-x`. */
  function Negate(x: Num): (r: Num)
    ensures r.Some? <==> x.Some?
    ensures r.Some? ==> r.value == -x.value
  {
    if x.Some? then Some(-x.value) else None
  }

  predicate IsHexDigit(c: char) {
    IsDigit(c) || 'a' <= c <= 'f' || 'A' <= c <= 'F'
  }

  /** Whether `c` is a digit in base 10 or 16, and its value. */
  predicate IsDigitIn(c: char, base: nat) {
    if base == 16 then IsHexDigit(c) else IsDigit(c)
  }

  function DigitIn(c: char, base: nat): (d: nat)
    requires IsDigitIn(c, base)
  {
    if IsDigit(c) then c as int - '0' as int
    else if 'a' <= c <= 'f' then c as int - 'a' as int + 10
    else c as int - 'A' as int + 10
  }

  /**
    Reads the run of base-`base` digits at the front of `t` onto the value `acc` already read;
    NaN when no digit was read at all (`any` says whether one was read before).
  */
  function ScanInteger(t: string, base: nat, acc: nat, any: bool): Option<int>
    decreases |t|
  {
    if t != [] && IsDigitIn(t[0], base) then ScanInteger(t[1..], base, acc * base + DigitIn(t[0], base), true)
    else if any then Some(acc)
    else None
  }

  /** The unsigned part of `parseInt`: hexadecimal after `0x`/`0X`, decimal otherwise. */
  function IntegerMagnitude(t: string): Option<int> {
    if |t| >= 2 && t[0] == '0' && (t[1] == 'x' || t[1] == 'X') then ScanInteger(t[2..], 16, 0, false)
    else ScanInteger(t, 10, 0, false)
  }

  /**
    `parseInt(s)` without a radix: leading whitespace skipped, an optional sign, then a
    `0x`/`0X` prefix selects base 16; the longest run of digits of the base is read, and
    NaN results when that run is empty.
  */
  function ParseInt(s: string): Option<int>
    decreases |s|
  {
    if s != [] && IsWhitespace(s[0]) then ParseInt(s[1..])
    else if s != [] && s[0] == '-' then
      var m := IntegerMagnitude(s[1..]);
      if m.Some? then Some(-m.value) else None
    else if s != [] && s[0] == '+' then IntegerMagnitude(s[1..])
    else IntegerMagnitude(s)
  }

  /**
    Reads `digits`, `digits.digits`, `digits.` or `.digits` from the front of `t`: `mantissa`
    holds every digit read so far, `scale` how many of them follow the point. NaN when no
    digit is read.
  */
  function ScanDecimal(t: string, mantissa: nat, scale: nat, anyDigit: bool, afterPoint: bool): Num
    decreases |t|
  {
    if t != [] && IsDigit(t[0]) then
      ScanDecimal(t[1..], 10 * mantissa + (t[0] as int - '0' as int),
                  if afterPoint then scale + 1 else scale, true, afterPoint)
    else if t != [] && t[0] == '.' && !afterPoint then ScanDecimal(t[1..], mantissa, scale, anyDigit, true)
    else if anyDigit then Some(mantissa as real / Pow10(scale) as real)
    else None
  }

  /**
    `parseFloat(s)`: leading whitespace skipped, an optional sign, then the longest prefix
    that is a decimal literal without exponent; NaN when there is none.
  */
  function ParseFloat(s: string): Num
    decreases |s|
  {
    if s != [] && IsWhitespace(s[0]) then ParseFloat(s[1..])
    else if s != [] && s[0] == '-' then Negate(ScanDecimal(s[1..], 0, 0, false, false))
    else if s != [] && s[0] == '+' then ScanDecimal(s[1..], 0, 0, false, false)
    else ScanDecimal(s, 0, 0, false, false)
  }

  /** Only the text after the leading whitespace matters to either parser. */
  lemma {:induction false} ParsersSkipLeadingWhitespace(s: string)
    ensures ParseInt(s) == ParseInt(TrimStart(s))
    ensures ParseFloat(s) == ParseFloat(TrimStart(s))
  {
    if s != [] && IsWhitespace(s[0]) {
      ParsersSkipLeadingWhitespace(s[1..]);
    }
  }

  /** A blank field parses to NaN, under either parser. */
  lemma {:induction false} BlankIsNaN(s: string)
    requires IsBlank(s)
    ensures ParseInt(s) == None && ParseFloat(s) == None
  {
    BlankIffAllWhitespace(s);
    TrimStartOfWhitespace(s);
    ParsersSkipLeadingWhitespace(s);
  }

  /** Scanning a run of decimal digits onto `acc` yields `acc` shifted left by the run, plus the run's value. */
  lemma {:induction false} ScanDigitRun(t: string, acc: nat, any: bool)
    requires AllDigits(t) && (any || t != [])
    ensures ScanInteger(t, 10, acc, any) == Some(acc * Pow10(|t|) + DigitsValue(t))
    ensures ScanDecimal(t, acc, 0, any, false) == Some((acc * Pow10(|t|) + DigitsValue(t)) as real)
  {
    if t == [] {
      assert ScanDecimal(t, acc, 0, any, false) == Some(acc as real / 1.0);
    } else {
      var d := t[0] as int - '0' as int;
      var rest := t[1..];
      assert t == [t[0]] + rest;
      DigitsValueAppend([t[0]], rest);
      assert DigitsValue([t[0]]) == d by {
        assert [t[0]][..0] == [];
      }
      ScanDigitRun(rest, 10 * acc + d, true);
      assert DigitIn(t[0], 10) == d;
      ShiftRun(acc, d, Pow10(|rest|), DigitsValue(rest));
    }
  }

  lemma ShiftRun(acc: int, d: int, p: int, v: int)
    ensures (10 * acc + d) * p + v == acc * (10 * p) + (d * p + v)
  {
  }

  /** A non-empty string of digits alone is read whole, by both parsers, as its decimal value. */
  lemma {:induction false} ParseDigits(s: string)
    requires s != [] && AllDigits(s)
    ensures ParseInt(s) == Some(DigitsValue(s))
    ensures ParseFloat(s) == Some(DigitsValue(s) as real)
  {
    ScanDigitRun(s, 0, false);
    assert !(|s| >= 2 && s[0] == '0' && (s[1] == 'x' || s[1] == 'X'));
  }

  /** A numeral is read back as the number it denotes: `parseInt(String(n)) === n`, and likewise `parseFloat`. */
  lemma {:induction false} ParseNumeral(n: nat)
    ensures ParseInt(NatToString(n)) == Some(n)
    ensures ParseFloat(NatToString(n)) == Some(n as real)
  {
    ParseDigits(NatToString(n));
    NatToStringValue(n);
  }
}
