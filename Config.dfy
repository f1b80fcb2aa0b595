/** Compile-time constants of the firmware (include/config.h) and the
    32-bit unsigned arithmetic of the ESP8266 that the controller runs on. */
module Config {

  const U32_MODULUS: int := 0x1_0000_0000

  /** `uint32_t`. Every arithmetic result stored in a `u32` must be proved to
      fit, so a verified method that computes in `u32` cannot overflow. */
  newtype u32 = x: int | 0 <= x < 0x1_0000_0000

  const PWM_RANGE: u32 := 1024
  const PWM_MIN_FREQ: u32 := 100
  const PWM_MAX_FREQ: u32 := 1000
  const PWM_MIN_WIDTH: u32 := 1
  const PWM_MAX_WIDTH: u32 := 10000

  /** Longest value a form field may carry. */
  const HTML_TEXT_INPUT_MAX_LENGTH: nat := 64

  /** The C conversion of a signed integer to `uint32_t`: reduction modulo 2^32. */
  function ToU32(x: int): (r: u32)
    ensures 0 <= x < U32_MODULUS ==> r as int == x
    ensures (x - r as int) % U32_MODULUS == 0
  {
    (x % U32_MODULUS) as u32
  }

  /** The character of a decimal digit. */
  function Digit(d: nat): (c: char)
    requires d < 10
    ensures c as int - '0' as int == d
  {
    ('0' as int + d) as char
  }

  /** Decimal rendering of an unsigned number, as `%u` and `String(n)` print it. */
  function Decimal(n: nat): (s: string)
    ensures 1 <= |s|
    ensures forall i :: 0 <= i < |s| ==> '0' <= s[i] <= '9'
    decreases n
  {
    if n < 10 then [Digit(n)] else Decimal(n / 10) + [Digit(n % 10)]
  }

  /** Decimal rendering of a signed number, as `String(int)` prints it. */
  function SignedDecimal(i: int): (s: string)
    ensures 1 <= |s| && (s[0] == '-' <==> i < 0)
  {
    if i < 0 then "-" + Decimal(-i) else Decimal(i)
  }

  /** The number a string of decimal digits denotes. */
  function DigitsValue(s: string): nat
    requires forall i :: 0 <= i < |s| ==> '0' <= s[i] <= '9'
  {
    if s == [] then 0 else 10 * DigitsValue(s[..|s| - 1]) + (s[|s| - 1] as int - '0' as int)
  }

  /** What `Decimal` prints reads back as the same number, so a message that
      prints a limit names exactly that limit. */
  lemma {:induction false} DecimalRoundTrip(n: nat)
    ensures DigitsValue(Decimal(n)) == n
    decreases n
  {
    if n >= 10 {
      DecimalRoundTrip(n / 10);
      var s := Decimal(n);
      assert s[..|s| - 1] == Decimal(n / 10);
    }
  }
}
