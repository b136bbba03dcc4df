/**
 * Two-decimal rendering of an amount held as integer cents, standing in for
 * `toFixed(2)` on a balance whose fixed-point meaning is PIC 9(6)V99, and the
 * parse that reads such a rendering back.
 */
module Money {
  import opened Wrappers

  predicate IsDigit(c: char) { '0' <= c <= '9' }

  predicate AllDigits(s: string) { forall i :: 0 <= i < |s| ==> IsDigit(s[i]) }

  function DigitValue(c: char): (d: nat)
    requires IsDigit(c)
    ensures d < 10
  {
    c as int - '0' as int
  }

  function DigitChar(d: nat): (c: char)
    requires d < 10
    ensures IsDigit(c) && DigitValue(c) == d
  {
    ('0' as int + d) as char
  }

  /** Decimal digits of `n`, most significant first, with no leading zero. */
  function NatToDigits(n: nat): (s: string)
    ensures 0 < |s| && AllDigits(s)
    ensures s[0] == '0' <==> n == 0
    ensures n < 10 <==> |s| == 1
  {
    if n < 10 then [DigitChar(n)] else NatToDigits(n / 10) + [DigitChar(n % 10)]
  }

  /** The number a string of decimal digits denotes. */
  function DigitsToNat(s: string): nat
    requires AllDigits(s)
  {
    if s == [] then 0 else DigitsToNat(s[..|s| - 1]) * 10 + DigitValue(s[|s| - 1])
  }

  lemma {:induction false} DigitsRoundTrip(n: nat)
    ensures DigitsToNat(NatToDigits(n)) == n
  {
    if n >= 10 {
      var p := NatToDigits(n / 10);
      var s := p + [DigitChar(n % 10)];
      assert s[..|s| - 1] == p;
      DigitsRoundTrip(n / 10);
    }
  }

  /**
   * `c` cents written with exactly two digits after the point: 100000 is
   * "1000.00", 0 is "0.00", -5 is "-0.05".
   */
  function FormatCents(c: int): (s: string)
    ensures |s| >= 4 && s[|s| - 3] == '.' && IsDigit(s[|s| - 2]) && IsDigit(s[|s| - 1])
    ensures forall i :: 0 <= i < |s| - 3 ==> s[i] != '.'
    ensures s[0] == '-' <==> c < 0
    ensures var w := if c < 0 then 1 else 0;
            IsDigit(s[w]) && (s[w] == '0' ==> w + 1 == |s| - 3)
  {
    var m: nat := if c < 0 then -c else c;
    var whole := NatToDigits(m / 100);
    var r := m % 100;
    (if c < 0 then "-" else "") + whole + "." + [DigitChar(r / 10), DigitChar(r % 10)]
  }

  /** The initial balance prints as the program's test TC-004 expects. */
  lemma FormatThousand()
    ensures FormatCents(100000) == "1000.00"
  {
    assert DigitChar(0) == '0' && DigitChar(1) == '1';
    assert NatToDigits(1) == "1";
    assert NatToDigits(10) == "10";
    assert NatToDigits(100) == "100";
    assert NatToDigits(1000) == "1000";
  }

  /** Reads "<digits>.<digit><digit>" back as a number of cents. */
  function ParseUnsignedCents(s: string): Option<nat>
  {
    if |s| >= 4 && s[|s| - 3] == '.' && AllDigits(s[..|s| - 3]) && IsDigit(s[|s| - 2]) && IsDigit(s[|s| - 1])
    then Some(DigitsToNat(s[..|s| - 3]) * 100 + DigitValue(s[|s| - 2]) * 10 + DigitValue(s[|s| - 1]))
    else None
  }

  /** Reads an optionally signed two-decimal rendering back as cents. */
  function ParseCents(s: string): Option<int>
  {
    if 0 < |s| && s[0] == '-' then
      match ParseUnsignedCents(s[1..])
      case Some(v) => Some(-(v as int))
      case None => None
    else
      match ParseUnsignedCents(s)
      case Some(v) => Some(v)
      case None => None
  }

  lemma UnsignedRoundTrip(m: nat)
    ensures ParseUnsignedCents(NatToDigits(m / 100) + "." + [DigitChar(m % 100 / 10), DigitChar(m % 100 % 10)]) == Some(m)
  {
    var whole := NatToDigits(m / 100);
    var r := m % 100;
    var u := whole + "." + [DigitChar(r / 10), DigitChar(r % 10)];
    assert u[..|u| - 3] == whole;
    assert u[|u| - 3] == '.';
    DigitsRoundTrip(m / 100);
    assert r == r / 10 * 10 + r % 10;
  }

  /** Formatting loses nothing: the rendering reads back as the same number of cents. */
  lemma {:induction false} FormatRoundTrip(c: int)
    ensures ParseCents(FormatCents(c)) == Some(c)
  {
    var m: nat := if c < 0 then -c else c;
    var u := NatToDigits(m / 100) + "." + [DigitChar(m % 100 / 10), DigitChar(m % 100 % 10)];
    UnsignedRoundTrip(m);
    if c < 0 {
      assert FormatCents(c) == "-" + u;
      assert ("-" + u)[1..] == u;
    } else {
      assert FormatCents(c) == u;
      assert IsDigit(u[0]);
    }
  }

  /** Two different balances never print the same. */
  lemma FormatInjective(a: int, b: int)
    ensures FormatCents(a) == FormatCents(b) ==> a == b
  {
    FormatRoundTrip(a);
    FormatRoundTrip(b);
  }
}
