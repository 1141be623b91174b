/** PHP's conversions between integers and decimal strings: the string form of
    an int (as used by the `.` operator) and `intval` applied to a string. */
module Decimal {

  predicate IsDigit(c: char) { '0' <= c <= '9' }

  predicate AllDigits(s: string) { forall i :: 0 <= i < |s| ==> IsDigit(s[i]) }

  function DigitChar(d: nat): (c: char)
    requires d < 10
    ensures IsDigit(c) && c as int - '0' as int == d
  {
    (d + '0' as int) as char
  }

  function DigitValue(c: char): nat
    requires IsDigit(c)
  {
    c as int - '0' as int
  }

  /** Decimal digits of a natural number, most significant first, no leading zero. */
  function ShowNat(n: nat): (s: string)
    ensures |s| > 0 && AllDigits(s)
    ensures s[0] == '0' ==> n == 0
    decreases n
  {
    if n < 10 then [DigitChar(n)] else ShowNat(n / 10) + [DigitChar(n % 10)]
  }

  /** PHP's string form of an int: a '-' sign for negatives, then the digits. */
  function Show(n: int): (s: string)
    ensures |s| > 0 && (s[0] == '-' || IsDigit(s[0]))
    ensures n < 0 <==> s[0] == '-'
    ensures n < 0 ==> s[1..] == ShowNat(-n)
    ensures n >= 0 ==> s == ShowNat(n)
  {
    if n < 0 then "-" + ShowNat(-n) else ShowNat(n)
  }

  /** The whitespace that PHP skips before a numeric string: space, \t, \n, \r, \v, \f. */
  predicate IsSpace(c: char)
  {
    c == ' ' || c == '\t' || c == '\n' || c == '\r' || c as int == 11 || c as int == 12
  }

  function SkipSpace(s: string): (t: string)
    ensures |t| <= |s|
  {
    if |s| > 0 && IsSpace(s[0]) then SkipSpace(s[1..]) else s
  }

  /** The longest prefix of `s` made of digits. */
  function LeadingDigits(s: string): (d: string)
    ensures AllDigits(d) && d <= s
  {
    if |s| > 0 && IsDigit(s[0]) then [s[0]] + LeadingDigits(s[1..]) else []
  }

  /** The number a string of digits denotes. */
  function DigitsValue(ds: string): nat
    requires AllDigits(ds)
  {
    if ds == [] then 0 else DigitsValue(ds[..|ds| - 1]) * 10 + DigitValue(ds[|ds| - 1])
  }

  /** `intval` on a string: leading whitespace, an optional sign, then as many
      digits as follow; a string with no leading digits gives 0. */
  function IntVal(s: string): (r: int)
    ensures var t := SkipSpace(s);
            (t == [] || !(IsDigit(t[0]) || t[0] == '-' || t[0] == '+')) ==> r == 0
    ensures r < 0 ==> SkipSpace(s)[0] == '-'
  {
    var t := SkipSpace(s);
    if |t| > 0 && (t[0] == '-' || t[0] == '+') then
      var m: int := DigitsValue(LeadingDigits(t[1..]));
      if t[0] == '-' then -m else m
    else
      DigitsValue(LeadingDigits(t))
  }

  /** A canonical decimal string: non-empty digits without a leading zero. */
  predicate Canonical(s: string)
  {
    |s| > 0 && AllDigits(s) && (s[0] == '0' ==> |s| == 1)
  }

  lemma {:induction false} LeadingDigitsStop(ds: string, rest: string)
    requires AllDigits(ds)
    requires rest == [] || !IsDigit(rest[0])
    ensures LeadingDigits(ds + rest) == ds
    decreases |ds|
  {
    if ds == [] {
      assert ds + rest == rest;
    } else {
      assert (ds + rest)[1..] == ds[1..] + rest;
      LeadingDigitsStop(ds[1..], rest);
    }
  }

  lemma {:induction false} DigitsValueOfShowNat(n: nat)
    ensures DigitsValue(ShowNat(n)) == n
    decreases n
  {
    if n >= 10 {
      var s := ShowNat(n);
      assert s[..|s| - 1] == ShowNat(n / 10);
      DigitsValueOfShowNat(n / 10);
    }
  }

  /** Printing an int and reading it back with `intval` gives the int again,
      also when the printed digits are followed by a non-digit. */
  lemma IntValUnsigned(ds: string, rest: string)
    requires |ds| > 0 && AllDigits(ds)
    requires rest == [] || !IsDigit(rest[0])
    ensures IntVal(ds + rest) == DigitsValue(ds)
  {
    var s := ds + rest;
    assert s[0] == ds[0];
    assert SkipSpace(s) == s;
    LeadingDigitsStop(ds, rest);
  }

  lemma IntValNegative(ds: string, rest: string)
    requires |ds| > 0 && AllDigits(ds)
    requires rest == [] || !IsDigit(rest[0])
    ensures IntVal("-" + ds + rest) == -(DigitsValue(ds) as int)
  {
    var t := ds + rest;
    var s := "-" + t;
    assert "-" + ds + rest == s;
    assert SkipSpace(s) == s by {
      assert s[0] == '-';
    }
    assert s[1..] == t;
    assert LeadingDigits(t) == ds by {
      LeadingDigitsStop(ds, rest);
    }
  }

  lemma {:induction false} IntValShow(n: int, rest: string)
    requires rest == [] || !IsDigit(rest[0])
    ensures IntVal(Show(n) + rest) == n
  {
    if n < 0 {
      DigitsValueOfShowNat(-n);
      assert Show(n) == "-" + ShowNat(-n);
      IntValNegative(ShowNat(-n), rest);
    } else {
      DigitsValueOfShowNat(n);
      IntValUnsigned(ShowNat(n), rest);
    }
  }

  /** The all-inputs form of IntValShow with nothing after the digits. */
  lemma IntValInvertsShow()
    ensures forall n :: IntVal(Show(n)) == n
  {
    forall n ensures IntVal(Show(n)) == n {
      IntValShow(n, []);
      assert Show(n) + [] == Show(n);
    }
  }

  lemma {:induction false} DigitsValueAtLeastFirst(ds: string)
    requires |ds| > 0 && AllDigits(ds)
    ensures DigitsValue(ds) >= DigitValue(ds[0])
    decreases |ds|
  {
    if |ds| > 1 {
      DigitsValueAtLeastFirst(ds[..|ds| - 1]);
    }
  }

  /** `intval` of a string of digits is the number the digits denote. */
  lemma IntValOfDigits(s: string)
    requires |s| > 0 && AllDigits(s)
    ensures IntVal(s) == DigitsValue(s)
  {
    LeadingDigitsStop(s, []);
    assert s + [] == s;
    assert SkipSpace(s) == s;
  }

  lemma {:induction false} ShowNatDigitsValue(s: string)
    requires Canonical(s)
    ensures ShowNat(DigitsValue(s)) == s
    decreases |s|
  {
    if |s| > 1 {
      var p := s[..|s| - 1];
      assert Canonical(p);
      DigitsValueAtLeastFirst(p);
      ShowNatDigitsValue(p);
      assert s == p + [s[|s| - 1]];
    }
  }

  /** The other direction: a canonical decimal string read with `intval` and
      printed again is the same string. */
  lemma ShowIntValCanonical(s: string)
    requires Canonical(s)
    ensures Show(IntVal(s)) == s
  {
    IntValOfDigits(s);
    ShowNatDigitsValue(s);
  }

  /** `intval` is lenient: leading whitespace is skipped, reading stops at
      the first non-digit, and a string without leading digits gives 0. */
  lemma IntValLenient()
    ensures IntVal(" 12") == 12 && IntVal("12abc") == 12 && IntVal("abc") == 0 && IntVal("-7") == -7
  {
    assert SkipSpace(" 12") == "12";
    assert LeadingDigits("12") == "12";
    assert LeadingDigits("12abc") == "12";
    assert LeadingDigits("7") == "7";
    assert DigitsValue("12") == 12 by {
      assert "12"[..1] == "1";
    }
  }
}
