/** Python's `str(n)` and `int(s)` on integers written in base 10. */
module Decimal {
  import opened Wrappers

  function DigitChar(d: int): char
    requires 0 <= d < 10
  {
    ('0' as int + d) as char
  }

  predicate IsDigit(c: char)
  {
    '0' <= c <= '9'
  }

  ghost predicate AllDigits(s: string)
  {
    forall i :: 0 <= i < |s| ==> IsDigit(s[i])
  }

  /** The base-10 digits of `n`, most significant first, without leading zeros. */
  function Digits(n: nat): (r: string)
    ensures |r| > 0 && AllDigits(r)
    ensures r[0] == '0' ==> n == 0
  {
    if n < 10 then [DigitChar(n)] else Digits(n / 10) + [DigitChar(n % 10)]
  }

  lemma DigitsOfSmall(n: nat)
    requires n < 100
    ensures |Digits(n)| <= 2
  {
    if n >= 10 {
      assert Digits(n) == Digits(n / 10) + [DigitChar(n % 10)];
    }
  }

  lemma DigitsOfFourDigitNumber(n: nat)
    ensures 1000 <= n < 10000 ==> |Digits(n)| == 4
  {
    if 1000 <= n < 10000 {
      assert Digits(n) == Digits(n / 10) + [DigitChar(n % 10)];
      assert Digits(n / 10) == Digits(n / 100) + [DigitChar((n / 10) % 10)];
      assert Digits(n / 100) == Digits(n / 1000) + [DigitChar((n / 100) % 10)];
    }
  }

  /** The most digits CPython converts between `int` and `str` by default
      (`sys.int_info.default_max_str_digits`). */
  const MaxStrDigits: nat := 4300

  /** The text CPython's `str(n)` raises `ValueError` with when `n` has too
      many digits. */
  const StrDigitsLimitMessage: string :=
    "Exceeds the limit (4300 digits) for integer string conversion; use sys.set_int_max_str_digits() to increase the limit"

  /** `n` has more decimal digits than `str()` and `int()` accept. */
  predicate ExceedsStrDigits(n: int)
  {
    |Digits(if n < 0 then -n else n)| > MaxStrDigits
  }

  /** Python's `str(n)` for an `n` within the digit limit: an optional minus
      sign and the digits, without leading zeros. */
  function DecimalString(n: int): (r: string)
    ensures |r| > 0 && (r[0] == '-' <==> n < 0)
    ensures n < 0 ==> AllDigits(r[1..]) && |r| > 1 && r[1] != '0'
    ensures n >= 0 ==> AllDigits(r) && (r[0] == '0' ==> n == 0)
  {
    if n < 0 then "-" + Digits(-n) else Digits(n)
  }

  /** The number a string of digits denotes. */
  function DigitsValue(s: string): nat
    requires AllDigits(s)
  {
    if |s| == 0 then 0
    else DigitsValue(s[..|s| - 1]) * 10 + (s[|s| - 1] as int - '0' as int)
  }

  lemma {:induction false} DigitsRoundTrip(n: nat)
    ensures DigitsValue(Digits(n)) == n
  {
    if n >= 10 {
      var d := Digits(n);
      assert d[..|d| - 1] == Digits(n / 10);
      DigitsRoundTrip(n / 10);
    }
  }

  /** The ASCII white space `int()` skips around the number: the space and
      `\t` to `\r`. Unlike `str.strip()`, it does not skip `\x1c` to `\x1f`. */
  predicate IsSpace(c: char)
  {
    c == ' ' || '\t' <= c <= '\r'
  }

  function StripLeft(s: string): (r: string)
    ensures |r| <= |s|
  {
    if |s| > 0 && IsSpace(s[0]) then StripLeft(s[1..]) else s
  }

  function StripRight(s: string): (r: string)
    ensures |r| <= |s|
  {
    if |s| > 0 && IsSpace(s[|s| - 1]) then StripRight(s[..|s| - 1]) else s
  }

  /** Python's `int(s)` for base-10 text: surrounding white space, an
      optional sign and at least one digit, at most `MaxStrDigits` of them;
      `None` where Python raises `ValueError`. */
  function ParseInt(s: string): (r: Option<int>)
    ensures r.Some? <==> 0 < |Unsigned(s)| <= MaxStrDigits && AllDigits(Unsigned(s))
    ensures r.Some? ==> r.value == if Negative(s) then -(DigitsValue(Unsigned(s)) as int) else DigitsValue(Unsigned(s))
  {
    var body := Unsigned(s);
    if 0 < |body| <= MaxStrDigits && forall i :: 0 <= i < |body| ==> IsDigit(body[i]) then
      var v: int := DigitsValue(body);
      Some(if Negative(s) then -v else v)
    else None
  }

  /** The digits `int(s)` reads: `s` without surrounding white space and
      without one leading sign. */
  function Unsigned(s: string): string
  {
    var t := StripRight(StripLeft(s));
    if |t| > 0 && (t[0] == '-' || t[0] == '+') then t[1..] else t
  }

  /** `s`, stripped, starts with a minus sign. */
  predicate Negative(s: string)
  {
    var t := StripRight(StripLeft(s));
    |t| > 0 && t[0] == '-'
  }

  /** `int()` skips a vertical tab and a form feed around the digits, but
      not the file separator `\x1c`, which `str.strip()` would remove. */
  lemma ParseIntSkipsOnlyAsciiSpace()
    ensures ParseInt("\U{0B}0\U{0C}") == Some(0)
    ensures ParseInt("\U{1C}0") == None
  {
    assert StripRight(StripLeft("\U{0B}0\U{0C}")) == "0";
    assert StripRight(StripLeft("\U{1C}0")) == "\U{1C}0";
  }

  /** `int(str(n)) == n` for every `n` that `str()` accepts. */
  lemma ParseIntOfDecimal(n: int)
    requires !ExceedsStrDigits(n)
    ensures ParseInt(DecimalString(n)) == Some(n)
  {
    var s := DecimalString(n);
    var d := if n < 0 then Digits(-n) else Digits(n);
    assert StripLeft(s) == s;
    assert StripRight(s) == s;
    DigitsRoundTrip(if n < 0 then -n else n);
    if n < 0 {
      assert s[1..] == d;
    }
  }

  /** `int()` refuses a number of 4301 digits. */
  lemma ParseIntRefusesLongNumbers()
    ensures ParseInt("1" + seq(MaxStrDigits, i => '0')) == None
  {
    var s := "1" + seq(MaxStrDigits, i => '0');
    assert !IsSpace(s[0]) && !IsSpace(s[|s| - 1]);
    assert StripRight(StripLeft(s)) == s;
  }

  /** `Pad(n, w)` is `n` in base 10, zero-padded on the left to width `w`. */
  function Pad(n: nat, w: nat): (r: string)
    ensures |r| == if |Digits(n)| >= w then |Digits(n)| else w
    ensures AllDigits(r)
  {
    var d := Digits(n);
    if |d| >= w then d else seq(w - |d|, i => '0') + d
  }
}
