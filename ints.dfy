/** Kotlin's 32-bit `Int`: the truncating `Long.toInt()`, wrapping `Int`
    addition, and `String.toIntOrNull()` on the digit strings the app feeds it. */
module Ints {
  import opened Collections
  import opened Text

  const MinInt32: int := -0x8000_0000
  const MaxInt32: int := 0x7FFF_FFFF
  const TwoTo32: int := 0x1_0000_0000

  type Int32 = x: int | MinInt32 <= x <= MaxInt32

  /** `Long.toInt()` (and the result of 32-bit `Int` arithmetic): keep the low
      32 bits, read back in two's complement. */
  function ToInt32(x: int): (r: Int32)
    ensures (x - r) % TwoTo32 == 0
    ensures MinInt32 <= x <= MaxInt32 ==> r == x
  {
    (x - MinInt32) % TwoTo32 + MinInt32
  }

  /** Adding one to a 32-bit value below the maximum is exact; at the maximum it
      wraps to the minimum. */
  lemma IncrementWraps(x: Int32)
    ensures x < MaxInt32 ==> ToInt32(x + 1) == x + 1
    ensures x == MaxInt32 ==> ToInt32(x + 1) == MinInt32
  {
  }

  function DigitValue(c: char): (d: nat)
    requires IsDigit(c)
    ensures d < 10
  {
    c as int - '0' as int
  }

  function DigitChar(d: nat): (c: char)
    requires d < 10
    ensures IsDigit(c) && DigitValue(c) == d
  {
    ('0' as int + d) as char
  }

  /** The decimal value of a string of digits. */
  function DecimalValue(s: string): nat
    requires AllDigits(s)
  {
    if s == [] then 0 else DecimalValue(s[..|s| - 1]) * 10 + DigitValue(s[|s| - 1])
  }

  /** `toIntOrNull()` on a digit string: null when empty or above `Int.MAX_VALUE`. */
  function ToIntOrNull(s: string): (r: Option<Int32>)
    requires AllDigits(s)
    ensures r.Some? ==> s != [] && r.value >= 0
  {
    if s == [] || DecimalValue(s) > MaxInt32 then None else Some(DecimalValue(s) as Int32)
  }

  /** `Int.toString()` of a non-negative number. */
  function Decimal(n: nat): (s: string)
    ensures s != [] && AllDigits(s)
  {
    if n < 10 then [DigitChar(n)] else Decimal(n / 10) + [DigitChar(n % 10)]
  }

  /** Reading back the decimal rendering of a number yields that number. */
  lemma {:induction false} DecimalRoundTrip(n: nat)
    ensures DecimalValue(Decimal(n)) == n
  {
    var s := Decimal(n);
    if n >= 10 {
      DecimalRoundTrip(n / 10);
      assert s[..|s| - 1] == Decimal(n / 10);
    }
  }

  /** `toIntOrNull` inverts `toString` on every non-negative `Int`. */
  lemma ToIntOrNullOfDecimal(n: nat)
    requires n <= MaxInt32
    ensures ToIntOrNull(Decimal(n)) == Some(n as Int32)
  {
    DecimalRoundTrip(n);
  }
}
