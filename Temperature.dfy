/**
 * The display conversion applied to every temperature shown: identity for
 * Fahrenheit, the rounded Celsius value for Celsius.
 */
module Temperature {
  import opened Weather

  /** Rounding as the host's Math.round does it: the nearest integer, halves upward. */
  function RoundHalfUp(x: real): (n: int)
    ensures n as real - 0.5 <= x < n as real + 0.5
  {
    (x + 0.5).Floor
  }

  /**
   * The temperature `temp` (Fahrenheit) as shown in `unit`. The exact
   * Celsius value (temp - 32) * 5/9 is a multiple of 1/9, never a half, so
   * it rounds to the integer within 4/9 of it; this is computed here with
   * integer floor division only.
   */
  function ConvertTemperature(temp: int, unit: Unit): (r: int)
    ensures unit != C ==> r == temp
    ensures unit == C ==> -4 <= 9 * r - 5 * (temp - 32) <= 4
  {
    if unit == C then (10 * (temp - 32) + 9) / 18 else temp
  }

  /** The integer conversion is exactly Math.round of the real-valued formula. */
  lemma ConvertIsMathRound(temp: int)
    ensures ConvertTemperature(temp, C) == RoundHalfUp((temp - 32) as real * 5.0 / 9.0)
  {
  }

  /**
   * The Celsius reading is the nearest integer to the exact value: no other
   * integer is closer to (temp - 32) * 5/9, and every other one is strictly
   * farther.
   */
  lemma ConvertIsNearest(temp: int, k: int)
    ensures var r := ConvertTemperature(temp, C);
            var d := 9 * r - 5 * (temp - 32);
            var e := 9 * k - 5 * (temp - 32);
            k != r ==> (if d < 0 then -d else d) < (if e < 0 then -e else e)
  {
  }

  /** A warmer Fahrenheit reading never shows as a colder one, in either unit. */
  lemma ConvertMonotonic(t1: int, t2: int, unit: Unit)
    requires t1 <= t2
    ensures ConvertTemperature(t1, unit) <= ConvertTemperature(t2, unit)
  {
  }

  /** Fixed points of the two scales, and one rounded value. */
  lemma ConvertExamples()
    ensures ConvertTemperature(32, C) == 0
    ensures ConvertTemperature(212, C) == 100
    ensures ConvertTemperature(100, C) == 38
    ensures ConvertTemperature(212, F) == 212
    ensures ConvertTemperature(-40, C) == -40
  {
  }

  /** The Fahrenheit reading nearest to `celsius` degrees Celsius (halves upward). */
  function FahrenheitOf(celsius: int): (t: int)
    ensures -2 <= 5 * (t - 32) - 9 * celsius <= 2
  {
    (18 * celsius + 5) / 10 + 32
  }

  /**
   * Converting a whole-degree Celsius value to Fahrenheit, rounding, and
   * displaying it in Celsius gives the Celsius value back: the display
   * conversion loses nothing at whole Celsius degrees.
   */
  lemma CelsiusRoundTrip(celsius: int)
    ensures ConvertTemperature(FahrenheitOf(celsius), C) == celsius
  {
  }
}
