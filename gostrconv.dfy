/**
  Go's strconv.Atoi on a 64-bit platform, with strconv.Itoa as the reference
  formatter it inverts.
 */
module GoStrconv {
  import opened Wrappers

  const MinInt64: int := -0x8000_0000_0000_0000
  const MaxInt64: int := 0x7FFF_FFFF_FFFF_FFFF

  predicate IsDigit(c: char) {
    '0' <= c <= '9'
  }

  predicate AllDigits(s: string) {
    forall i | 0 <= i < |s| :: IsDigit(s[i])
  }

  function DigitValue(c: char): nat
    requires IsDigit(c)
  {
    (c as int - '0' as int) as nat
  }

  /** The value of a string of decimal digits, most significant first. */
  function DigitsValue(s: string): nat
    requires AllDigits(s)
  {
    if s == [] then 0 else DigitsValue(s[..|s| - 1]) * 10 + DigitValue(s[|s| - 1])
  }

  /**
    strconv.Atoi: an optional sign followed by at least one decimal digit and
    nothing else, whose value fits in a 64-bit int; anything else is a syntax or
    range error.
   */
  function Atoi(s: string): (r: Option<int>)
    ensures r.Some? ==> MinInt64 <= r.value <= MaxInt64
    ensures r.Some? ==> s != [] && AllDigits(if s[0] == '-' || s[0] == '+' then s[1..] else s)
  {
    if s == [] then None
    else
      var body := if s[0] == '-' || s[0] == '+' then s[1..] else s;
      if body == [] || !AllDigits(body) then None
      else
        var v: int := DigitsValue(body);
        var n := if s[0] == '-' then -v else v;
        if MinInt64 <= n <= MaxInt64 then Some(n) else None
  }

  /** A plain digit string that fits in 64 bits is read as its value. */
  lemma AtoiDigits(s: string)
    requires s != [] && AllDigits(s) && DigitsValue(s) <= MaxInt64
    ensures Atoi(s) == Some(DigitsValue(s))
  {
  }

  function DigitChar(d: nat): (c: char)
    requires d < 10
    ensures IsDigit(c) && DigitValue(c) == d
  {
    ('0' as int + d) as char
  }

  /** Decimal digits of a natural number, without leading zeros ("0" for zero). */
  function NatDigits(n: nat): (s: string)
    ensures s != [] && AllDigits(s)
    ensures |s| > 1 ==> s[0] != '0'
  {
    if n < 10 then [DigitChar(n)] else NatDigits(n / 10) + [DigitChar(n % 10)]
  }

  /** strconv.Itoa: the canonical decimal form, with a leading '-' for negative values. */
  function Itoa(n: int): string {
    if n < 0 then "-" + NatDigits(-n) else NatDigits(n)
  }

  lemma {:induction false} NatDigitsValue(n: nat)
    ensures DigitsValue(NatDigits(n)) == n
  {
    if n >= 10 {
      NatDigitsValue(n / 10);
      var s := NatDigits(n);
      assert s[..|s| - 1] == NatDigits(n / 10);
    }
  }

  /** A '-' followed by digits is read as the negated value of the digits. */
  lemma AtoiNegative(d: string)
    requires d != [] && AllDigits(d) && DigitsValue(d) <= MaxInt64 + 1
    ensures Atoi("-" + d) == Some(-(DigitsValue(d) as int))
  {
    assert ("-" + d)[0] == '-' && ("-" + d)[1..] == d;
  }

  /** Atoi reads back exactly what Itoa writes, for every 64-bit value. */
  lemma AtoiItoa(n: int)
    requires MinInt64 <= n <= MaxInt64
    ensures Atoi(Itoa(n)) == Some(n)
  {
    if n < 0 {
      NatDigitsValue(-n);
      AtoiNegative(NatDigits(-n));
    } else {
      NatDigitsValue(n);
      AtoiDigits(NatDigits(n));
    }
  }

  /** Leading zeros do not change the value of a digit string. */
  lemma {:induction false} LeadingZero(s: string)
    requires AllDigits(s)
    ensures AllDigits("0" + s) && DigitsValue("0" + s) == DigitsValue(s)
  {
    if s != [] {
      var t := "0" + s;
      assert t[..|t| - 1] == "0" + s[..|s| - 1];
      LeadingZero(s[..|s| - 1]);
    }
  }

  /** The values of the digit strings "123" and "925". */
  lemma ThreeDigitExamples()
    ensures AllDigits("123") && DigitsValue("123") == 123
    ensures AllDigits("925") && DigitsValue("925") == 925
  {
    assert DigitsValue("1") == 1 by { assert "1"[..0] == ""; }
    assert DigitsValue("12") == 12 by { assert "12"[..1] == "1"; }
    assert DigitsValue("123") == 123 by { assert "123"[..2] == "12"; }
    assert DigitsValue("9") == 9 by { assert "9"[..0] == ""; }
    assert DigitsValue("92") == 92 by { assert "92"[..1] == "9"; }
    assert DigitsValue("925") == 925 by { assert "925"[..2] == "92"; }
  }

  /** Four leading zeros do not change the value of a digit string. */
  lemma FourLeadingZeros(s: string)
    requires AllDigits(s)
    ensures AllDigits("0000" + s) && DigitsValue("0000" + s) == DigitsValue(s)
  {
    LeadingZero(s);
    LeadingZero("0" + s);
    LeadingZero("0" + ("0" + s));
    LeadingZero("0" + ("0" + ("0" + s)));
    assert "0000" + s == "0" + ("0" + ("0" + ("0" + s)));
  }

  /** Decimal parsing of a zero-padded number, as in "0000123" and "0925". */
  lemma AtoiZeroPadded()
    ensures Atoi("0000123") == Some(123)
    ensures Atoi("0925") == Some(925)
  {
    ThreeDigitExamples();
    assert Atoi("0000123") == Some(123) by {
      FourLeadingZeros("123");
      assert "0000123" == "0000" + "123";
      AtoiDigits("0000123");
    }
    assert Atoi("0925") == Some(925) by {
      LeadingZero("925");
      assert "0925" == "0" + "925";
      AtoiDigits("0925");
    }
  }
}
