/** Rust's `i64`: its range, two's complement wrap-around, and the decimal
    text forms produced by `format!("{}", n)` and read by `str::parse::<i64>`. */
module Int64 {
  import opened Wrappers

  const I64_MIN: int := -0x8000_0000_0000_0000
  const I64_MAX: int := 0x7FFF_FFFF_FFFF_FFFF
  const TWO_64: int := 0x1_0000_0000_0000_0000

  type I64 = x: int | I64_MIN <= x <= I64_MAX

  /** Reduce an integer to 64-bit two's complement, as the hardware does. */
  function Wrap(x: int): (r: I64)
    ensures (r - x) % TWO_64 == 0
    ensures I64_MIN <= x <= I64_MAX ==> r == x
  {
    (x - I64_MIN) % TWO_64 + I64_MIN
  }

  /** The bit pattern of `x` read as an unsigned 64-bit number. */
  function Unsigned(x: I64): (r: nat)
    ensures r < TWO_64 && (r - x) % TWO_64 == 0
  {
    if x < 0 then x + TWO_64 else x
  }

  function Abs(x: int): nat { if x < 0 then -x else x }

  /** Integer division rounding toward zero (Rust's `/`, x86 `idiv`), in
      contrast with Dafny's Euclidean `/`. */
  function TruncDiv(a: int, b: int): (q: int)
    requires b != 0
    ensures a >= 0 && b > 0 ==> q == a / b
  {
    var q := Abs(a) / Abs(b);
    if (a < 0) != (b < 0) then -q else q
  }

  predicate IsAsciiDigit(c: char) { '0' <= c <= '9' }

  function DigitValue(c: char): nat
    requires IsAsciiDigit(c)
  {
    c as int - '0' as int
  }

  function DigitChar(d: nat): (c: char)
    requires d < 10
    ensures IsAsciiDigit(c) && DigitValue(c) == d
  {
    ('0' as int + d) as char
  }

  predicate AllDigits(s: string) { forall i :: 0 <= i < |s| ==> IsAsciiDigit(s[i]) }

  /** The base-10 value of a string of ASCII digits, most significant first. */
  function DecimalValue(s: string): nat
    requires AllDigits(s)
  {
    if s == [] then 0 else DecimalValue(s[..|s| - 1]) * 10 + DigitValue(s[|s| - 1])
  }

  /** The shortest decimal digit string of `n` (what `{}` formatting writes). */
  function NatToDecimal(n: nat): (s: string)
    ensures |s| > 0 && AllDigits(s)
    ensures |s| > 1 ==> s[0] != '0'
  {
    if n < 10 then [DigitChar(n)] else NatToDecimal(n / 10) + [DigitChar(n % 10)]
  }

  /** `format!("{}", n)` for an `i64`: a minus sign for negatives, then digits. */
  function IntToDecimal(n: int): (s: string)
    ensures |s| > 0 && (s[0] == '-' <==> n < 0)
    ensures forall k :: 0 <= k < |s| ==> s[k] == '-' || IsAsciiDigit(s[k])
  {
    if n < 0 then "-" + NatToDecimal(-n) else NatToDecimal(n)
  }

  /** `s.parse::<i64>()`: an optional `+` or `-`, then one or more ASCII
      digits, whose value must lie in the `i64` range; anything else fails. */
  function ParseI64(s: string): (r: Option<I64>)
    ensures r.Some? ==> |s| > 0
    ensures r.Some? && s[0] == '-' ==> r.value <= 0
  {
    if |s| == 0 then None
    else
      var signed := s[0] == '+' || s[0] == '-';
      var digits := if signed then s[1..] else s;
      if |digits| == 0 || !AllDigits(digits) then None
      else
        var v: int := if s[0] == '-' then -(DecimalValue(digits) as int) else DecimalValue(digits);
        if I64_MIN <= v <= I64_MAX then Some(v) else None
  }

  lemma {:induction false} DecimalRoundTrip(n: nat)
    ensures DecimalValue(NatToDecimal(n)) == n
  {
    if n >= 10 {
      var s := NatToDecimal(n);
      assert s[..|s| - 1] == NatToDecimal(n / 10);
      DecimalRoundTrip(n / 10);
    }
  }

  /** Reading back what formatting wrote gives the same `i64`: the lexer's
      number parsing inverts the code generator's literal formatting. */
  lemma ParseFormatRoundTrip(n: I64)
    ensures ParseI64(IntToDecimal(n)) == Some(n)
  {
    if n < 0 {
      DecimalRoundTrip(-(n as int));
      assert IntToDecimal(n)[1..] == NatToDecimal(-(n as int));
    } else {
      DecimalRoundTrip(n);
    }
  }

  /** A run of digits parses exactly when its value fits in `i64`. */
  lemma ParseDigits(s: string)
    requires |s| > 0 && AllDigits(s)
    ensures ParseI64(s) == if DecimalValue(s) <= I64_MAX then Some(DecimalValue(s)) else None
  {
  }
}
