/** `_parse_value`: how a query-string value is typed before it is compared
    with a column (routes.py). */
module QueryValues {
  import opened Values

  predicate IsDigit(c: char) {
    '0' <= c <= '9'
  }

  predicate AllDigits(s: string) {
    forall i :: 0 <= i < |s| ==> IsDigit(s[i])
  }

  predicate IsDigits(s: string) {
    |s| > 0 && AllDigits(s)
  }

  /** The value of a run of decimal digits, read left to right. */
  function DigitsValue(s: string): nat
    requires AllDigits(s)
  {
    if |s| == 0 then 0
    else
      var last := s[|s| - 1];
      assert IsDigit(last);
      10 * DigitsValue(s[..|s| - 1]) + (last as int - '0' as int)
  }

  predicate IsSign(c: char) {
    c == '+' || c == '-'
  }

  /** The strings `int()` accepts, in the model: an optional sign and one or more digits. */
  predicate IsIntLiteral(s: string) {
    IsDigits(s) || (|s| > 1 && IsSign(s[0]) && IsDigits(s[1..]))
  }

  function IntValue(s: string): int
    requires IsIntLiteral(s)
  {
    if IsDigits(s) then DigitsValue(s)
    else if s[0] == '-' then -(DigitsValue(s[1..]) as int)
    else DigitsValue(s[1..])
  }

  /** Index of the first `.` in `s`, or `|s|` if there is none. */
  function PointIndex(s: string): (k: nat)
    ensures k <= |s|
    ensures k < |s| ==> s[k] == '.'
    ensures forall i :: 0 <= i < k ==> s[i] != '.'
  {
    if |s| == 0 then 0
    else if s[0] == '.' then 0
    else 1 + PointIndex(s[1..])
  }

  /** An unsigned decimal: digits, digits with a fractional part, or a fractional part alone. */
  predicate IsDecimal(s: string) {
    var k := PointIndex(s);
    if k == |s| then IsDigits(s)
    else |s| > 1 && AllDigits(s[..k]) && AllDigits(s[k + 1..])
  }

  /** The strings `float()` accepts, in the model: an optional sign and a decimal. */
  predicate IsFloatLiteral(s: string) {
    IsDecimal(s) || (|s| > 1 && IsSign(s[0]) && IsDecimal(s[1..]))
  }

  function DecimalValue(s: string): real
    requires IsDecimal(s)
  {
    var k := PointIndex(s);
    if k == |s| then DigitsValue(s) as real
    else
      var frac := s[k + 1..];
      DigitsValue(s[..k]) as real + DigitsValue(frac) as real / Pow10(|frac|) as real
  }

  function FloatValue(s: string): real
    requires IsFloatLiteral(s)
  {
    if IsDecimal(s) then DecimalValue(s)
    else if s[0] == '-' then -DecimalValue(s[1..])
    else DecimalValue(s[1..])
  }

  /** Every string `int()` accepts, `float()` accepts too. */
  lemma IntLiteralIsFloatLiteral(s: string)
    requires IsIntLiteral(s)
    ensures IsFloatLiteral(s)
  {
  }

  /** `_parse_value(val)`: int if `int()` accepts it, else float if `float()` accepts
      it, else a boolean for `true`/`false` in any letter case, else the string itself. */
  function ParseValue(val: string): (v: Value)
    ensures v.VInt? <==> IsIntLiteral(val)
    ensures v.VInt? ==> v.i == IntValue(val)
    ensures v.VFloat? <==> IsFloatLiteral(val) && !IsIntLiteral(val)
    ensures v.VFloat? ==> v.x == FloatValue(val)
    ensures v.VBool? <==> !IsFloatLiteral(val) && (Lower(val) == "true" || Lower(val) == "false")
    ensures v.VBool? ==> v.b == (Lower(val) == "true")
    ensures v.VStr? ==> v.s == val
    ensures !v.VNull?
  {
    if IsIntLiteral(val) then
      IntLiteralIsFloatLiteral(val);
      VInt(IntValue(val))
    else if IsFloatLiteral(val) then VFloat(FloatValue(val))
    else if Lower(val) == "true" then VBool(true)
    else if Lower(val) == "false" then VBool(false)
    else VStr(val)
  }

  /** Decimal digits of a natural number, as Python's `str` writes them. */
  function ShowNat(n: nat): (s: string)
    ensures forall i :: 0 <= i < |s| ==> IsDigit(s[i])
    ensures |s| > 0
  {
    if n < 10 then [('0' as int + n) as char]
    else ShowNat(n / 10) + [('0' as int + n % 10) as char]
  }

  /** `str(n)` for an integer. */
  function ShowInt(n: int): string {
    if n < 0 then "-" + ShowNat(-n) else ShowNat(n)
  }

  lemma {:induction false} DigitsValueOfShowNat(n: nat)
    ensures DigitsValue(ShowNat(n)) == n
  {
    var s := ShowNat(n);
    if n < 10 {
    } else {
      DigitsValueOfShowNat(n / 10);
      assert s[..|s| - 1] == ShowNat(n / 10);
    }
  }

  /** A query value written as `str(n)` comes back as the integer `n`. */
  lemma ParseShowInt(n: int)
    ensures ParseValue(ShowInt(n)) == VInt(n)
  {
    var s := ShowInt(n);
    if n < 0 {
      DigitsValueOfShowNat(-n);
      assert s[1..] == ShowNat(-n);
      assert !IsDigits(s) by { assert !IsDigit(s[0]); }
    } else {
      DigitsValueOfShowNat(n);
    }
  }

  /** "1" is the integer 1, never the boolean true. */
  lemma ParseOne()
    ensures ParseValue("1") == VInt(1)
  {
    assert IsDigits("1");
    assert DigitsValue("1") == 10 * DigitsValue("") + 1;
  }

  /** "0.5" is not an int literal, so it becomes the float one half. */
  lemma ParseHalf()
    ensures ParseValue("0.5") == VFloat(1.0 / 2.0)
  {
    var s := "0.5";
    assert !IsIntLiteral(s) by { assert !IsDigit(s[1]); assert !IsSign(s[0]); }
    assert PointIndex(s) == 1 by { assert PointIndex(s[1..]) == 0; }
    assert s[..1] == "0" && s[2..] == "5";
    assert DigitsValue("0") == 0 by { assert DigitsValue("0") == 10 * DigitsValue("") + 0; }
    assert DigitsValue("5") == 5 by { assert DigitsValue("5") == 10 * DigitsValue("") + 5; }
    assert IsDecimal(s);
    assert Pow10(1) == 10;
  }

  /** Booleans are recognised in any letter case. */
  lemma ParseTrueAnyCase()
    ensures ParseValue("TRUE") == VBool(true)
  {
    var s := "TRUE";
    assert !IsDigit(s[0]) && !IsSign(s[0]);
    assert PointIndex(s) == 4 by {
      assert PointIndex(s[3..]) == 1 by { assert PointIndex(s[4..]) == 0; }
      assert s[1..][1..] == s[2..] && s[2..][1..] == s[3..];
    }
    assert !IsFloatLiteral(s);
    assert Lower(s) == "true";
  }

  /** "true" is the boolean true. */
  lemma ParseTrue()
    ensures ParseValue("true") == VBool(true)
  {
    var s := "true";
    assert !IsDigit(s[0]) && !IsSign(s[0]);
    assert PointIndex(s) == 4 by {
      assert PointIndex(s[3..]) == 1 by { assert PointIndex(s[4..]) == 0; }
      assert s[1..][1..] == s[2..] && s[2..][1..] == s[3..];
    }
    assert !IsFloatLiteral(s);
    assert Lower(s) == "true";
  }

  lemma ParseTen()
    ensures IsIntLiteral("10") && IntValue("10") == 10
  {
    assert IsDigits("10");
    assert DigitsValue("1") == 10 * DigitsValue("") + 1;
    assert "10"[..1] == "1";
  }
}
