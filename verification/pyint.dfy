/**
 * Python's `int(text)` and `str(n)` for base-10 integers, as the counter
 * file uses them. The grammar is an optional `+` or `-` followed by one or
 * more ASCII digits, with surrounding whitespace ignored.
 */
module PyInt {
  import opened Base
  import PyStr

  predicate IsDigit(c: char)
  {
    '0' <= c <= '9'
  }

  /** A non-empty run of ASCII digits. */
  predicate AllDigits(s: string)
  {
    |s| > 0 && forall i :: 0 <= i < |s| ==> IsDigit(s[i])
  }

  /** What `int()` accepts once whitespace has been stripped. */
  predicate IsIntLiteral(s: string)
  {
    || AllDigits(s)
    || (|s| > 1 && (s[0] == '+' || s[0] == '-') && AllDigits(s[1..]))
  }

  function DigitValue(c: char): nat
    requires IsDigit(c)
  {
    c as int - '0' as int
  }

  function Digit(d: nat): (c: char)
    requires d < 10
    ensures IsDigit(c) && DigitValue(c) == d
  {
    ('0' as int + d) as char
  }

  /** The base-10 value of a digit string, most significant digit first. */
  function DigitsValue(s: string): nat
    requires forall i :: 0 <= i < |s| ==> IsDigit(s[i])
    decreases |s|
  {
    if |s| == 0 then 0 else 10 * DigitsValue(s[..|s| - 1]) + DigitValue(s[|s| - 1])
  }

  /** `int(s)` on an already stripped string; `None` stands for `ValueError`. */
  function ParseInt(s: string): (r: Option<int>)
    ensures r.Some? <==> IsIntLiteral(s)
    ensures r.Some? && AllDigits(s) ==> r.value >= 0
    ensures r.Some? && s[0] == '-' ==> r.value <= 0
  {
    if AllDigits(s) then Some(DigitsValue(s))
    else if |s| > 1 && s[0] == '-' && AllDigits(s[1..]) then Some(-(DigitsValue(s[1..]) as int))
    else if |s| > 1 && s[0] == '+' && AllDigits(s[1..]) then Some(DigitsValue(s[1..]))
    else None
  }

  /** Python's `int(text)`: leading and trailing whitespace are ignored. */
  function Int(text: string): (r: Option<int>)
    ensures r.Some? <==> IsIntLiteral(PyStr.Strip(text))
  {
    ParseInt(PyStr.Strip(text))
  }

  /** Decimal digits of a natural number, without leading zeros. */
  function ShowNat(n: nat): (r: string)
    ensures AllDigits(r)
    ensures |r| > 1 ==> r[0] != '0'
  {
    if n < 10 then [Digit(n)] else ShowNat(n / 10) + [Digit(n % 10)]
  }

  /** Python's `str(v)` for an integer. */
  function Show(v: int): (r: string)
    ensures IsIntLiteral(r)
    ensures r[0] == '-' <==> v < 0
    ensures r[0] != '+'
  {
    if v < 0 then "-" + ShowNat(-v) else ShowNat(v)
  }

  lemma {:induction false} ShowNatValue(n: nat)
    ensures DigitsValue(ShowNat(n)) == n
    decreases n
  {
    if n >= 10 {
      var s := ShowNat(n);
      ShowNatValue(n / 10);
      assert s[..|s| - 1] == ShowNat(n / 10);
    }
  }

  /** `int(str(v)) == v` on stripped text. */
  lemma ParseShow(v: int)
    ensures ParseInt(Show(v)) == Some(v)
  {
    if v < 0 {
      ShowNatValue(-v);
      assert Show(v)[1..] == ShowNat(-v);
    } else {
      ShowNatValue(v);
    }
  }

  /** `int(str(v)) == v`: the text `str` produces carries no whitespace to strip. */
  lemma IntShow(v: int)
    ensures Int(Show(v)) == Some(v)
  {
    var s := Show(v);
    assert !PyStr.IsSpace(s[0]) && !PyStr.IsSpace(s[|s| - 1]);
    PyStr.StripTrimmed(s);
    ParseShow(v);
  }

  /** Values of the digit strings used below. */
  lemma DigitsExamples()
    ensures DigitsValue("007") == 7 && DigitsValue("12") == 12 && DigitsValue("3") == 3
  {
    assert "007"[..2] == "00" && "00"[..1] == "0" && "0"[..0] == "";
    assert "12"[..1] == "1" && "1"[..0] == "";
    assert "3"[..0] == "";
  }

  /** Leading zeros and surrounding whitespace are accepted. */
  lemma IntPaddedExample()
    ensures Int(" 007\n") == Some(7)
  {
    PyStr.StripAround(" ", "007", "\n");
    assert " " + "007" + "\n" == " 007\n";
    DigitsExamples();
  }

  /** An explicit plus sign is accepted. */
  lemma IntPlusExample()
    ensures Int("+12") == Some(12)
  {
    PyStr.StripTrimmed("+12");
    assert "+12"[1..] == "12";
    DigitsExamples();
    assert !AllDigits("+12");
  }

  /** A minus sign negates the digits that follow it. */
  lemma IntMinusExample()
    ensures Int("-3") == Some(-3)
  {
    PyStr.StripTrimmed("-3");
    assert "-3"[1..] == "3";
    DigitsExamples();
    assert !AllDigits("-3");
  }

  /** Empty text and a decimal point are rejected. */
  lemma IntRejectedExample()
    ensures Int("") == None
    ensures Int("1.5") == None
  {
    PyStr.StripTrimmed("1.5");
    assert !IsDigit("1.5"[1]);
  }
}
