/**
 * Digits and fixed-width integers shared by the models: decimal and hexadecimal
 * text (what `%d`, `%x`, `String.valueOf` and `std::hex` produce) and the
 * wrap-around of 32- and 64-bit machine integers.
 */
module Numerals {

  const TWO_32: int := 0x1_0000_0000
  const INT_MAX: int := 0x7FFF_FFFF
  const INT_MIN: int := -0x8000_0000

  predicate IsInt32(x: int) { INT_MIN <= x <= INT_MAX }

  const TWO_64: int := 0x1_0000_0000_0000_0000
  const LONG_MAX: int := 0x7FFF_FFFF_FFFF_FFFF
  const LONG_MIN: int := -0x8000_0000_0000_0000

  predicate IsInt64(x: int) { LONG_MIN <= x <= LONG_MAX }

  /** Two's-complement reinterpretation of the low 32 bits of `x` (a C or Java cast to int). */
  function Wrap32(x: int): (r: int)
    ensures IsInt32(r)
    ensures (r - x) % TWO_32 == 0
    ensures IsInt32(x) ==> r == x
  {
    var m := x % TWO_32;
    if m <= INT_MAX then m else m - TWO_32
  }

  /** Two's-complement reinterpretation of the low 64 bits of `x` (Java `long` arithmetic). */
  function Wrap64(x: int): (r: int)
    ensures IsInt64(r)
    ensures (r - x) % TWO_64 == 0
    ensures IsInt64(x) ==> r == x
  {
    var m := x % TWO_64;
    if m <= LONG_MAX then m else m - TWO_64
  }

  /** Java and C integer division, which truncates toward zero (Dafny's `/` is Euclidean). */
  function TruncDiv(a: int, b: int): int
    requires b > 0
  {
    if a >= 0 then a / b else -((-a) / b)
  }

  /** Java and C `%`, whose result takes the sign of the dividend. */
  function TruncRem(a: int, b: int): (r: int)
    requires b > 0
    ensures a == b * TruncDiv(a, b) + r
    ensures a >= 0 ==> 0 <= r < b
    ensures a < 0 ==> -b < r <= 0
  {
    a - b * TruncDiv(a, b)
  }

  function Min(a: int, b: int): int { if a <= b then a else b }

  function Max(a: int, b: int): int { if a >= b then a else b }

  // ---------------------------------------------------------------- decimal

  predicate IsDigit(c: char) { '0' <= c <= '9' }

  predicate AllDigits(s: seq<char>) { forall i :: 0 <= i < |s| ==> IsDigit(s[i]) }

  function DigitChar(d: nat): (c: char)
    requires d < 10
    ensures IsDigit(c)
  {
    ['0', '1', '2', '3', '4', '5', '6', '7', '8', '9'][d]
  }

  function DigitValue(c: char): (d: nat)
    requires IsDigit(c)
    ensures d < 10
  {
    (c as int) - ('0' as int)
  }

  lemma DigitRoundTrip(d: nat)
    requires d < 10
    ensures DigitValue(DigitChar(d)) == d
  {
  }

  /** Decimal digits of `n`, most significant first, without leading zeros. */
  function DecDigits(n: nat): (s: seq<char>)
    decreases n
  {
    if n < 10 then [DigitChar(n)] else DecDigits(n / 10) + [DigitChar(n % 10)]
  }

  /** Value of a string of digits, most significant first (`atoi` on digits only). */
  function DecValue(s: seq<char>): nat
    requires AllDigits(s)
  {
    if s == [] then 0 else DecValue(s[..|s| - 1]) * 10 + DigitValue(s[|s| - 1])
  }

  lemma {:induction false} DecDigitsWellFormed(n: nat)
    ensures |DecDigits(n)| > 0 && AllDigits(DecDigits(n))
    ensures DecValue(DecDigits(n)) == n
    ensures DecDigits(n)[0] != '0' || n == 0
    decreases n
  {
    if n >= 10 {
      DecDigitsWellFormed(n / 10);
      var s := DecDigits(n);
      assert s[..|s| - 1] == DecDigits(n / 10);
      DigitRoundTrip(n % 10);
    } else {
      DigitRoundTrip(n);
    }
  }

  /** `%d` of a signed integer. */
  function IntToDec(x: int): (s: seq<char>)
    ensures |s| > 0
  {
    DecDigitsWellFormed(if x < 0 then -x else x);
    if x < 0 then ['-'] + DecDigits(-x) else DecDigits(x)
  }

  /** `%d` text is a '-' exactly for negatives, followed by digits only. */
  lemma IntToDecShape(x: int)
    ensures IntToDec(x)[0] == '-' <==> x < 0
    ensures forall i :: 0 < i < |IntToDec(x)| ==> IsDigit(IntToDec(x)[i])
    ensures x >= 0 ==> AllDigits(IntToDec(x))
  {
    DecDigitsWellFormed(if x < 0 then -x else x);
  }

  /** Different integers have different `%d` texts. */
  lemma IntToDecInjective(x: int, y: int)
    requires IntToDec(x) == IntToDec(y)
    ensures x == y
  {
    IntToDecShape(x);
    IntToDecShape(y);
    var a := if x < 0 then -x else x;
    var b := if y < 0 then -y else y;
    DecDigitsWellFormed(a);
    DecDigitsWellFormed(b);
    if x < 0 {
      assert IntToDec(x)[1..] == DecDigits(a);
      assert IntToDec(y)[1..] == DecDigits(b);
    }
  }

  // ------------------------------------------------------------ hexadecimal

  predicate IsHexDigit(c: char) { IsDigit(c) || 'a' <= c <= 'f' || 'A' <= c <= 'F' }

  predicate AllHexDigits(s: seq<char>) { forall i :: 0 <= i < |s| ==> IsHexDigit(s[i]) }

  /** One hexadecimal digit, lower case unless `upper`. */
  function HexChar(d: nat, upper: bool): (c: char)
    requires d < 16
    ensures IsHexDigit(c)
  {
    if d < 10 then DigitChar(d)
    else if upper then ['A', 'B', 'C', 'D', 'E', 'F'][d - 10]
    else ['a', 'b', 'c', 'd', 'e', 'f'][d - 10]
  }

  /** Value of one hexadecimal digit in either case. */
  function HexValue(c: char): (d: nat)
    requires IsHexDigit(c)
    ensures d < 16
  {
    if IsDigit(c) then DigitValue(c)
    else if 'a' <= c <= 'f' then (c as int) - ('a' as int) + 10
    else (c as int) - ('A' as int) + 10
  }

  lemma HexCharRoundTrip(d: nat, upper: bool)
    requires d < 16
    ensures HexValue(HexChar(d, upper)) == d
  {
  }

  /** Value of a string of hexadecimal digits, most significant first. */
  function HexStringValue(s: seq<char>): nat
    requires AllHexDigits(s)
  {
    if s == [] then 0 else HexStringValue(s[..|s| - 1]) * 16 + HexValue(s[|s| - 1])
  }

  /** Hexadecimal digits of `n` without leading zeros ("0" for zero). */
  function HexDigits(n: nat, upper: bool): (s: seq<char>)
    decreases n
  {
    if n < 16 then [HexChar(n, upper)] else HexDigits(n / 16, upper) + [HexChar(n % 16, upper)]
  }

  lemma {:induction false} HexDigitsWellFormed(n: nat, upper: bool)
    ensures |HexDigits(n, upper)| > 0 && AllHexDigits(HexDigits(n, upper))
    ensures HexStringValue(HexDigits(n, upper)) == n
    decreases n
  {
    if n >= 16 {
      HexDigitsWellFormed(n / 16, upper);
      var s := HexDigits(n, upper);
      assert s[..|s| - 1] == HexDigits(n / 16, upper);
      HexCharRoundTrip(n % 16, upper);
    } else {
      HexCharRoundTrip(n, upper);
    }
  }

  /** `s` left-padded with `fill` to at least `width` characters (`std::setw` + `std::setfill`). */
  function PadLeft(s: seq<char>, width: nat, fill: char): (r: seq<char>)
    ensures |r| == if |s| < width then width else |s|
    ensures r[|r| - |s|..] == s
    ensures forall i :: 0 <= i < |r| - |s| ==> r[i] == fill
  {
    if |s| < width then seq(width - |s|, _ => fill) + s else s
  }

  /** Two lowercase hexadecimal digits of a byte (`%02x`). */
  function Hex2(b: nat): (r: seq<char>)
    requires b < 256
    ensures |r| == 2 && AllHexDigits(r)
    ensures HexValue(r[0]) * 16 + HexValue(r[1]) == b
  {
    HexCharRoundTrip(b / 16, false);
    HexCharRoundTrip(b % 16, false);
    [HexChar(b / 16, false), HexChar(b % 16, false)]
  }
}
