/**
 * The two Python built-ins the billing code applies to integers:
 * `int(s)` on a text (base 10), used on the product code the user typed,
 * and `str(n)`, used on quantities, prices and totals when the invoice is drawn.
 */
module Numerals {
  import opened Wrappers

  /** Why `int(s)` raises `ValueError`. */
  datatype CodeError = InvalidCodeFormat

  predicate IsDigit(c: char) { '0' <= c <= '9' }

  /** The ASCII characters `int()` skips around the literal: \t \n \v \f \r and space. */
  predicate IsSpace(c: char) { c == ' ' || '\t' <= c <= '\r' }

  function DigitValue(c: char): nat
    requires IsDigit(c)
  {
    c as int - '0' as int
  }

  function DigitChar(d: nat): (c: char)
    requires d < 10
    ensures IsDigit(c) && DigitValue(c) == d
  {
    ('0' as int + d) as char
  }

  function StripLeft(s: string): (t: string)
    ensures |t| <= |s| && t == s[|s| - |t|..]
    ensures t != [] ==> !IsSpace(t[0])
  {
    if s != [] && IsSpace(s[0]) then StripLeft(s[1..]) else s
  }

  function StripRight(s: string): (t: string)
    ensures |t| <= |s| && t == s[..|t|]
    ensures t != [] ==> !IsSpace(t[|t| - 1])
  {
    if s != [] && IsSpace(s[|s| - 1]) then StripRight(s[..|s| - 1]) else s
  }

  /** `s` with the surrounding white space removed, as `int()` does before reading digits. */
  function Strip(s: string): string
  {
    StripRight(StripLeft(s))
  }

  /**
   * A run of decimal digits in which single underscores may separate two
   * digits ("1_000"); no leading, trailing or doubled underscore.
   */
  predicate IsDigitRun(t: string)
  {
    |t| > 0 && forall i :: 0 <= i < |t| ==> RunChar(t, i)
  }

  /** Position `i` of `t` holds a digit, or an underscore between two digits. */
  predicate RunChar(t: string, i: nat)
    requires i < |t|
  {
    IsDigit(t[i]) || (t[i] == '_' && 0 < i < |t| - 1 && IsDigit(t[i - 1]) && IsDigit(t[i + 1]))
  }

  /** The digits of `t` with the separating underscores dropped. */
  function Digits(t: string): (d: string)
    ensures forall c :: c in d ==> c in t && c != '_'
  {
    if t == [] then []
    else if t[|t| - 1] == '_' then Digits(t[..|t| - 1])
    else Digits(t[..|t| - 1]) + [t[|t| - 1]]
  }

  /** The number a string of decimal digits denotes, most significant digit first. */
  function Value(d: string): nat
    requires forall c :: c in d ==> IsDigit(c)
  {
    if d == [] then 0 else Value(d[..|d| - 1]) * 10 + DigitValue(d[|d| - 1])
  }

  /** Only digits are left once the underscores of a digit run are dropped. */
  lemma DigitsOfRun(t: string)
    requires IsDigitRun(t)
    ensures forall c :: c in Digits(t) ==> IsDigit(c)
  {
    forall c | c in Digits(t) ensures IsDigit(c) {
      var i :| 0 <= i < |t| && t[i] == c;
      assert RunChar(t, i);
    }
  }

  /** Python's `int(s)` for a `str` in base 10, with `ValueError` as a `Failure`. */
  function ParseInt(s: string): (r: Result<int, CodeError>)
    ensures r.Success? ==> Strip(s) != [] && IsDigit(Strip(s)[|Strip(s)| - 1])
  {
    var t := Strip(s);
    if |t| > 0 && (t[0] == '-' || t[0] == '+') && IsDigitRun(t[1..]) then
      DigitsOfRun(t[1..]);
      assert RunChar(t[1..], |t| - 2);
      var v: int := Value(Digits(t[1..]));
      Success(if t[0] == '-' then -v else v)
    else if IsDigitRun(t) then
      DigitsOfRun(t);
      assert RunChar(t, |t| - 1);
      Success(Value(Digits(t)))
    else
      Failure(InvalidCodeFormat)
  }

  /** Python's `str(n)` for a non-negative integer: its decimal digits, no leading zero. */
  function NatToString(n: nat): (s: string)
    ensures s != [] && forall c :: c in s ==> IsDigit(c)
    ensures s[0] == '0' ==> n == 0 && s == "0"
  {
    if n < 10 then [DigitChar(n)] else NatToString(n / 10) + [DigitChar(n % 10)]
  }

  /** Python's `str(n)` for any integer: a minus sign in front of a negative number. */
  function IntToString(n: int): (s: string)
    ensures s != [] && (s[0] == '-' <==> n < 0)
  {
    if n < 0 then "-" + NatToString(-n)
    else
      var d := NatToString(n);
      assert d[0] in d;
      d
  }

  lemma {:induction false} ValueOfNatToString(n: nat)
    ensures Value(NatToString(n)) == n
  {
    var s := NatToString(n);
    if n >= 10 {
      ValueOfNatToString(n / 10);
      assert s[..|s| - 1] == NatToString(n / 10);
    }
  }

  /** A string made only of digits has no underscore to drop. */
  lemma {:induction false} DigitsOfDigitString(s: string)
    requires forall c :: c in s ==> IsDigit(c)
    ensures Digits(s) == s
  {
    if s != [] {
      var p := s[..|s| - 1];
      assert forall c :: c in p ==> c in s;
      DigitsOfDigitString(p);
      assert s[|s| - 1] in s;
      assert s == p + [s[|s| - 1]];
    }
  }

  /** A string of digits is a digit run without underscores. */
  lemma DigitStringIsRun(d: string)
    requires d != [] && forall c :: c in d ==> IsDigit(c)
    ensures IsDigitRun(d) && Digits(d) == d
  {
    forall i | 0 <= i < |d| ensures RunChar(d, i) {
      assert d[i] in d;
    }
    DigitsOfDigitString(d);
  }

  /** `str(n)` starts and ends with a character `int` does not strip. */
  lemma StripOfIntToString(n: int)
    ensures Strip(IntToString(n)) == IntToString(n)
  {
    var s := IntToString(n);
    var d := NatToString(if n < 0 then -n else n);
    assert s[0] == '-' || s[0] in d;
    assert s[|s| - 1] in d;
    assert !IsSpace(s[0]) && !IsSpace(s[|s| - 1]);
    assert StripLeft(s) == s;
    assert StripRight(s) == s;
  }

  /** What `str` prints for an integer is read back by `int` as that integer. */
  lemma ParseIntOfIntToString(n: int)
    ensures ParseInt(IntToString(n)) == Success(n)
  {
    var m: nat := if n < 0 then -n else n;
    var d := NatToString(m);
    var s := IntToString(n);
    StripOfIntToString(n);
    DigitStringIsRun(d);
    ValueOfNatToString(m);
    if n < 0 {
      assert s[0] == '-' && s[1..] == d;
      var v: int := Value(Digits(d));
      assert ParseInt(s) == Success(-v);
    } else {
      assert s == d && s[0] in d;
      assert !(s[0] == '-' || s[0] == '+');
      assert ParseInt(s) == Success(Value(Digits(d)));
    }
  }

  /** A text in which no character is a decimal digit is never read by `int`. */
  lemma NoDigitNoParse(s: string)
    requires forall i :: 0 <= i < |s| ==> !IsDigit(s[i])
    ensures ParseInt(s) == Failure(InvalidCodeFormat)
  {
    var t := Strip(s);
    assert forall j :: 0 <= j < |t| ==> !IsDigit(t[j]) by {
      var l := StripLeft(s);
      forall j | 0 <= j < |t| ensures !IsDigit(t[j]) {
        assert t[j] == l[j] == s[|s| - |l| + j];
      }
    }
    assert |t| > 0 ==> !RunChar(t, 0);
    assert |t| > 1 ==> !RunChar(t[1..], 0);
  }

  /** Stripping white space from the right end never removes a first character that is not white space. */
  lemma {:induction false} StripRightKeepsHead(s: string)
    requires s != [] && !IsSpace(s[0])
    ensures StripRight(s) != [] && StripRight(s)[0] == s[0]
  {
    if IsSpace(s[|s| - 1]) {
      StripRightKeepsHead(s[..|s| - 1]);
    }
  }

  /** A control character 0x1C-0x1F in front of a code is not white space to `int`, so the code never parses. */
  lemma FileSeparatorIsNotSpace(s: string)
    requires s != [] && 28 <= s[0] as int <= 31
    ensures ParseInt(s) == Failure(InvalidCodeFormat)
  {
    assert StripLeft(s) == s;
    StripRightKeepsHead(s);
    var t := Strip(s);
    assert t[0] == s[0];
    assert !RunChar(t, 0);
    assert !IsDigitRun(t) && t[0] != '-' && t[0] != '+';
  }
}
