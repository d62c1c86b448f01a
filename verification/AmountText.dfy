/** The decimal printer and parser of money amounts (internal/money/money.go). */
module AmountText {
  import opened Prelude
  import opened Moneys

  predicate IsDigit(c: char) {
    '0' <= c <= '9'
  }

  predicate AllDigits(s: string) {
    forall i :: 0 <= i < |s| ==> IsDigit(s[i])
  }

  function DigitChar(d: nat): char
    requires d < 10
  {
    '0' + d as char
  }

  /** strconv.FormatInt(n, 10) for a non-negative n. */
  function Digits(n: nat): (s: string)
    ensures |s| >= 1 && AllDigits(s)
    ensures |s| > 1 ==> s[0] != '0'
  {
    if n < 10 then [DigitChar(n)] else Digits(n / 10) + [DigitChar(n % 10)]
  }

  /** The number a string of digits denotes, read as strconv.ParseInt reads it. */
  function ValueOf(s: string): nat
    requires AllDigits(s)
  {
    if s == "" then 0
    else 10 * ValueOf(s[..|s| - 1]) + (s[|s| - 1] - '0') as nat
  }

  function FormatInt(m: int): string {
    if m < 0 then "-" + Digits(-m) else Digits(m)
  }

  function Zeros(n: nat): string {
    seq(n, _ => '0')
  }

  /** amountString, defined for every integer; the program calls it on int64 values. */
  function AmountString(m: int): string {
    var formatted := FormatInt(m);
    var negative := formatted[0] == '-';
    var digits := if negative then formatted[1..] else formatted;
    var padded := if |digits| < 3 then Zeros(3 - |digits|) + digits else digits;
    (if negative then "-" else "") + padded[..|padded| - 2] + "." + padded[|padded| - 2..]
  }

  function Unsigned(s: string): string {
    if s != "" && s[0] == '-' then s[1..] else s
  }

  /** The pattern ^-?(0|[1-9]\d*)\.\d{2}$. */
  predicate MatchesPattern(s: string) {
    var u := Unsigned(s);
    && |u| >= 4
    && u[|u| - 3] == '.'
    && AllDigits(u[..|u| - 3])
    && AllDigits(u[|u| - 2..])
    && (|u| > 4 ==> u[0] != '0')
  }

  /** The digits of a matching amount, its one dot removed. */
  function WithoutDot(s: string): (digits: string)
    requires MatchesPattern(s)
    ensures AllDigits(digits) && |digits| >= 3
  {
    var u := Unsigned(s);
    u[..|u| - 3] + u[|u| - 2..]
  }

  function SignedValue(s: string): int
    requires MatchesPattern(s)
  {
    var magnitude: int := ValueOf(WithoutDot(s));
    if s[0] == '-' then -magnitude else magnitude
  }

  function ParseAmount(s: string): Result<int64> {
    if !MatchesPattern(s) || s == "-0.00" then Err(InvalidAmount)
    else if !InInt64(SignedValue(s)) then Err(Overflow)
    else Ok(SignedValue(s))
  }

  // ----- digits -----

  lemma {:induction false} ValueOfDigits(n: nat)
    ensures ValueOf(Digits(n)) == n
  {
    var s := Digits(n);
    if n >= 10 {
      ValueOfDigits(n / 10);
      assert s[..|s| - 1] == Digits(n / 10);
    } else {
      assert s[..|s| - 1] == "";
    }
  }

  lemma {:induction false} LeadingZerosKeepValue(k: nat, s: string)
    requires AllDigits(s)
    ensures AllDigits(Zeros(k) + s) && ValueOf(Zeros(k) + s) == ValueOf(s)
  {
    var t := Zeros(k) + s;
    if s != "" {
      LeadingZerosKeepValue(k, s[..|s| - 1]);
      assert t[..|t| - 1] == Zeros(k) + s[..|s| - 1];
    } else if k > 0 {
      LeadingZerosKeepValue(k - 1, s);
      assert t[..|t| - 1] == Zeros(k - 1) + s;
    }
  }

  /** Printing inverts reading on digit strings without superfluous leading zeros. */
  lemma {:induction false} DigitsOfValue(s: string)
    requires AllDigits(s) && |s| >= 1 && (|s| > 1 ==> s[0] != '0')
    ensures Digits(ValueOf(s)) == s
    ensures |s| > 1 ==> ValueOf(s) >= 10
  {
    var init, last := s[..|s| - 1], s[|s| - 1];
    assert s == init + [last];
    if |s| == 1 {
      assert ValueOf(init) == 0;
    } else {
      DigitsOfValue(init);
      if |init| == 1 {
        assert init[..0] == "";
        assert ValueOf(init) == (init[0] - '0') as nat >= 1;
      }
      var v, d := ValueOf(init), (last - '0') as nat;
      assert ValueOf(s) == 10 * v + d && (10 * v + d) / 10 == v && (10 * v + d) % 10 == d;
    }
  }

  // ----- the padded magnitude -----

  function Padded(n: nat): (s: string)
    ensures |s| >= 3 && AllDigits(s)
    ensures |s| > 3 ==> s[0] != '0'
  {
    var d := Digits(n);
    if |d| < 3 then Zeros(3 - |d|) + d else d
  }

  lemma ValueOfPadded(n: nat)
    ensures ValueOf(Padded(n)) == n
  {
    ValueOfDigits(n);
    if |Digits(n)| < 3 {
      LeadingZerosKeepValue(3 - |Digits(n)|, Digits(n));
    }
  }

  /** Padding the value of three or more digits gives the digits back, when any fourth
      digit is significant. */
  lemma PaddedOfValue(s: string)
    requires AllDigits(s) && |s| >= 3 && (|s| > 3 ==> s[0] != '0')
    ensures Padded(ValueOf(s)) == s
  {
    if s[0] != '0' {
      DigitsOfValue(s);
    } else if s[1] != '0' {
      LeadingZerosKeepValue(1, s[1..]);
      assert s == Zeros(1) + s[1..];
      DigitsOfValue(s[1..]);
    } else {
      assert |s| == 3;
      LeadingZerosKeepValue(2, s[2..]);
      assert s == Zeros(2) + s[2..];
      DigitsOfValue(s[2..]);
    }
  }

  /** A sign and three or more digits, put together as an amount. */
  function Assembled(negative: bool, p: string): string
    requires |p| >= 3
  {
    (if negative then "-" else "") + (p[..|p| - 2] + "." + p[|p| - 2..])
  }

  lemma AmountStringShape(m: int)
    ensures var p := Padded(if m < 0 then -m else m);
            AmountString(m) == Assembled(m < 0, p)
  {
    var n: nat := if m < 0 then -m else m;
    var f := FormatInt(m);
    if m < 0 {
      assert f[1..] == Digits(n);
    } else {
      assert IsDigit(f[0]);
    }
  }

  /** Taking an assembled amount apart gives the sign and the digits back. */
  lemma AssembledParts(negative: bool, p: string)
    requires |p| >= 3 && AllDigits(p) && (|p| > 3 ==> p[0] != '0')
    ensures var s := Assembled(negative, p);
            && MatchesPattern(s)
            && (s[0] == '-' <==> negative)
            && WithoutDot(s) == p
  {
    var s := Assembled(negative, p);
    var u := DottedDigits(p);
    assert negative ==> s[0] == '-' && s[1..] == u;
    assert Unsigned(s) == u;
  }

  lemma {:induction false} DottedDigits(p: string) returns (u: string)
    requires |p| >= 3 && AllDigits(p)
    ensures u == p[..|p| - 2] + "." + p[|p| - 2..]
    ensures |u| == |p| + 1 && u[0] == p[0] && IsDigit(u[0])
    ensures u[|u| - 3] == '.'
    ensures u[..|u| - 3] == p[..|p| - 2] && u[|u| - 2..] == p[|p| - 2..]
    ensures u[..|u| - 3] + u[|u| - 2..] == p
  {
    u := p[..|p| - 2] + "." + p[|p| - 2..];
  }

  lemma NegativeZeroText()
    ensures MatchesPattern("-0.00") && SignedValue("-0.00") == 0
  {
    AssembledParts(true, "000");
    assert "000"[..1] == "0" && "000"[1..] == "00";
    assert Assembled(true, "000") == "-0.00";
    LeadingZerosKeepValue(3, "");
    assert "000" == Zeros(3) + "";
  }

  /** Everything the printer writes matches the pattern and reads back as the number printed. */
  lemma PrintedAmountReadsBack(m: int)
    ensures MatchesPattern(AmountString(m)) && AmountString(m) != "-0.00"
    ensures SignedValue(AmountString(m)) == m
  {
    var n: nat := if m < 0 then -m else m;
    AmountStringShape(m);
    AssembledParts(m < 0, Padded(n));
    ValueOfPadded(n);
    NegativeZeroText();
  }

  /** A matching amount is assembled from its sign and its digits. */
  lemma MatchingAmountIsAssembled(s: string)
    requires MatchesPattern(s)
    ensures s == Assembled(s[0] == '-', WithoutDot(s))
  {
    var u, digits := Unsigned(s), WithoutDot(s);
    assert digits[..|digits| - 2] == u[..|u| - 3] && digits[|digits| - 2..] == u[|u| - 2..];
    assert u == u[..|u| - 3] + "." + u[|u| - 2..];
    assert s == (if s[0] == '-' then "-" else "") + u;
  }

  lemma NegativeZeroIsTheOnlySignedZero(s: string)
    requires MatchesPattern(s) && s[0] == '-' && SignedValue(s) == 0
    ensures s == "-0.00"
  {
    MatchingAmountIsAssembled(s);
    PaddedOfValue(WithoutDot(s));
    assert Digits(0) == "0";
    assert WithoutDot(s) == "000" && "000"[..1] == "0" && "000"[1..] == "00";
  }

  /** Everything that matches the pattern, bar the negative zero, is what the printer writes
      for its value. */
  lemma MatchingAmountIsPrinted(s: string)
    requires MatchesPattern(s) && s != "-0.00"
    ensures AmountString(SignedValue(s)) == s
  {
    MatchingAmountIsAssembled(s);
    PaddedOfValue(WithoutDot(s));
    AmountStringShape(SignedValue(s));
    if s[0] == '-' && SignedValue(s) == 0 {
      NegativeZeroIsTheOnlySignedZero(s);
    }
  }

  lemma DigitsFrom100(n: nat)
    requires n >= 100
    ensures Digits(n) == Digits(n / 100) + [DigitChar(n / 10 % 10), DigitChar(n % 10)]
  {
    assert n / 10 / 10 == n / 100;
    assert Digits(n) == Digits(n / 10) + [DigitChar(n % 10)];
    assert Digits(n / 10) == Digits(n / 100) + [DigitChar(n / 10 % 10)];
  }

  lemma PaddedExactly(n: nat)
    ensures Padded(n) == Digits(n / 100) + [DigitChar(n / 10 % 10), DigitChar(n % 10)]
  {
    if n >= 100 {
      DigitsFrom100(n);
    } else if n >= 10 {
      assert Digits(n) == [DigitChar(n / 10), DigitChar(n % 10)];
      assert Zeros(1) == "0";
    } else {
      assert Zeros(2) == "00";
    }
  }

  // ----- main results -----

  /** An amount is printed as its sign, its whole units in decimal, a dot and two digits of cents. */
  lemma AmountsPrintExactly(m: int)
    ensures var n: nat := if m < 0 then -m else m;
            AmountString(m) ==
            (if m < 0 then "-" else "") + Digits(n / 100) + "." + [DigitChar(n / 10 % 10), DigitChar(n % 10)]
  {
    var n: nat := if m < 0 then -m else m;
    AmountStringShape(m);
    PaddedExactly(n);
    var p := Padded(n);
    assert p[..|p| - 2] == Digits(n / 100) && p[|p| - 2..] == [DigitChar(n / 10 % 10), DigitChar(n % 10)];
  }

  /** Printing then parsing returns every int64, MinInt64 included. */
  lemma ParseInvertsPrint(m: int64)
    ensures ParseAmount(AmountString(m)) == Ok(m)
  {
    PrintedAmountReadsBack(m);
  }

  /** Whatever the parser accepts is the one way the printer writes its result. */
  lemma PrintInvertsParse(s: string)
    ensures ParseAmount(s).Ok? ==> AmountString(ParseAmount(s).value) == s
  {
    if ParseAmount(s).Ok? {
      MatchingAmountIsPrinted(s);
    }
  }

  /** The parser's three answers, told by the printer alone: a string is invalid exactly when
      it prints no integer at all, overflows exactly when it prints one outside int64, and is
      otherwise accepted as the integer it prints. */
  lemma ParseAnswersExactly(s: string)
    ensures ParseAmount(s) == Err(InvalidAmount) <==> forall v: int :: AmountString(v) != s
    ensures ParseAmount(s) == Err(Overflow) <==> exists v: int :: AmountString(v) == s && !InInt64(v)
    ensures forall v: int64 :: ParseAmount(s) == Ok(v) <==> AmountString(v) == s
  {
    forall v: int | AmountString(v) == s
      ensures MatchesPattern(s) && s != "-0.00" && SignedValue(s) == v
    {
      PrintedAmountReadsBack(v);
    }
    if MatchesPattern(s) && s != "-0.00" {
      MatchingAmountIsPrinted(s);
    }
  }
}
