/** Cell values as the application sees them after JSON, CSV or ORM decoding. */
module Values {

  /** A Python scalar held in a request field, a CSV cell or a table column.
      Python floats are modelled as exact reals. */
  datatype Value = VNull | VInt(i: int) | VFloat(x: real) | VBool(b: bool) | VStr(s: string)

  /** ASCII lower-casing of one character, the part of `str.lower` the model keeps. */
  function LowerChar(c: char): char {
    if 'A' <= c <= 'Z' then (c as int + 32) as char else c
  }

  function Lower(s: string): (r: string)
    ensures |r| == |s|
  {
    seq(|s|, i requires 0 <= i < |s| => LowerChar(s[i]))
  }

  predicate StartsWith(s: string, prefix: string) {
    |prefix| <= |s| && s[..|prefix|] == prefix
  }

  predicate EndsWith(s: string, suffix: string) {
    |suffix| <= |s| && s[|s| - |suffix|..] == suffix
  }

  /** Python's `round(x)` on a float: the nearest integer, ties to the even one. */
  function RoundHalfEven(x: real): (r: int)
    ensures x - 1.0 / 2.0 <= r as real <= x + 1.0 / 2.0
    ensures (r as real - x == 1.0 / 2.0 || x - r as real == 1.0 / 2.0) ==> r % 2 == 0
  {
    var f := x.Floor;
    var d := x - f as real;
    if d < 1.0 / 2.0 then f
    else if d > 1.0 / 2.0 then f + 1
    else if f % 2 == 0 then f else f + 1
  }

  /** Python's `int(x)` on a float: truncation toward zero. */
  function TruncateToInt(x: real): (r: int)
    ensures 0.0 <= x ==> r as real <= x < r as real + 1.0
    ensures x < 0.0 ==> r as real - 1.0 < x <= r as real
  {
    if 0.0 <= x then x.Floor else -((-x).Floor)
  }

  function Pow10(n: nat): (r: nat)
    ensures r >= 1
  {
    if n == 0 then 1 else 10 * Pow10(n - 1)
  }

  /** `x` measured in units of 10^-n. */
  function Scaled(x: real, n: nat): real {
    x * Pow10(n) as real
  }

  /** Python's `round(x, n)` on a float, taken on the exact value: the nearest multiple
      of 10^-n, ties to the even multiple. */
  function RoundDigits(x: real, n: nat): (r: real)
    ensures Scaled(x, n) - 1.0 / 2.0 <= Scaled(r, n) <= Scaled(x, n) + 1.0 / 2.0
    ensures Scaled(r, n).Floor as real == Scaled(r, n)
    ensures (Scaled(r, n) - Scaled(x, n) == 1.0 / 2.0 || Scaled(x, n) - Scaled(r, n) == 1.0 / 2.0)
            ==> Scaled(r, n).Floor % 2 == 0
  {
    var k := RoundHalfEven(Scaled(x, n));
    var r := k as real / Pow10(n) as real;
    assert Scaled(r, n) == k as real;
    assert (k as real).Floor == k;
    r
  }

  /** Python's `bool(v)` on a numeric model output. */
  predicate Truthy(x: real) {
    x != 0.0
  }
}
