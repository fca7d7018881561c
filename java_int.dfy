/** Java `int` arithmetic and `Integer.parseInt` for radix 10, as far as the
    preference parsers of the service depend on them. */
module JavaInt {
  import opened Wrappers

  const MinInt: int := -0x8000_0000
  const MaxInt: int := 0x7fff_ffff
  const Modulus: int := 0x1_0000_0000

  predicate IsInt(x: int) {
    MinInt <= x <= MaxInt
  }

  /** Two's-complement truncation of a mathematical integer to 32 bits. */
  function Wrap(x: int): (r: int)
    ensures IsInt(r)
    ensures IsInt(x) ==> r == x
    ensures (x - r) % Modulus == 0
  {
    (x - MinInt) % Modulus + MinInt
  }

  /** `a * b` on Java `int` operands: the product wraps around. */
  function Mul(a: int, b: int): (r: int)
    requires IsInt(a) && IsInt(b)
    ensures IsInt(r)
    ensures IsInt(a * b) ==> r == a * b
    ensures !IsInt(a * b) ==> r != a * b
  {
    Wrap(a * b)
  }

  predicate IsDigit(c: char) {
    '0' <= c <= '9'
  }

  predicate AllDigits(s: string) {
    forall i :: 0 <= i < |s| ==> IsDigit(s[i])
  }

  function DigitValue(c: char): (d: nat)
    requires IsDigit(c)
    ensures d < 10
  {
    c as int - '0' as int
  }

  function DigitChar(d: nat): (c: char)
    requires d < 10
    ensures IsDigit(c) && DigitValue(c) == d
  {
    ('0' as int + d) as char
  }

  /** The value of a string of decimal digits, most significant digit first. */
  function DigitsValue(s: string): (v: nat)
    requires AllDigits(s)
  {
    if |s| == 0 then 0
    else DigitsValue(s[..|s| - 1]) * 10 + DigitValue(s[|s| - 1])
  }

  /** The shortest decimal rendering of `n` (the text a user types). */
  function DecimalString(n: nat): (s: string)
    ensures 0 < |s| && AllDigits(s)
  {
    if n < 10 then [DigitChar(n)]
    else DecimalString(n / 10) + [DigitChar(n % 10)]
  }

  lemma {:induction false} DigitsValueOfDecimal(n: nat)
    ensures DigitsValue(DecimalString(n)) == n
  {
    var s := DecimalString(n);
    if n >= 10 {
      var prefix := DecimalString(n / 10);
      assert s[..|s| - 1] == prefix;
      DigitsValueOfDecimal(n / 10);
    }
  }

  /** `Integer.parseInt(s)`: an optional `-` or `+` sign followed by at least
      one decimal digit, whose value lies in the `int` range. Every other
      string raises `NumberFormatException`, modelled as `None`. */
  function ParseInt(s: string): (r: Option<int>)
    ensures r.Some? ==> IsInt(r.value)
    ensures r.Some? ==> 0 < |s|
  {
    if |s| == 0 then None
    else
      var signed := s[0] == '-' || s[0] == '+';
      var digits := if signed then s[1..] else s;
      if |digits| == 0 || !AllDigits(digits) then None
      else
        var magnitude: int := DigitsValue(digits);
        var v := if s[0] == '-' then -magnitude else magnitude;
        if IsInt(v) then Some(v) else None
  }

  lemma ParseIntDecimal(n: nat)
    ensures ParseInt(DecimalString(n)) == if n <= MaxInt then Some(n) else None
  {
    DigitsValueOfDecimal(n);
  }

  lemma ParseIntNegative(n: nat)
    ensures ParseInt("-" + DecimalString(n)) == if n <= -MinInt then Some(-(n as int)) else None
  {
    var s := "-" + DecimalString(n);
    assert s[1..] == DecimalString(n);
    DigitsValueOfDecimal(n);
  }

  /** A sign with no digits, or any character that is not a digit, is refused. */
  lemma ParseIntRejects(s: string)
    requires |s| > 0
    requires (!IsDigit(s[0]) && s[0] != '-' && s[0] != '+') || s == "-" || s == "+"
    ensures ParseInt(s) == None
  {
    if s != "-" && s != "+" {
      assert !AllDigits(s);
    }
  }
}
