/** Decimal printing of natural numbers, and the reading that inverts it. */
module Decimals {
  predicate IsDigit(c: char) {
    '0' <= c <= '9'
  }

  predicate AllDigits(s: string) {
    forall c <- s :: IsDigit(c)
  }

  function Digit(d: nat): (c: char)
    requires d < 10
    ensures IsDigit(c)
  {
    '0' + d as char
  }

  function Decimal(n: nat): string {
    if n < 10 then [Digit(n)] else Decimal(n / 10) + [Digit(n % 10)]
  }

  function ValueOf(s: string): nat
    requires AllDigits(s)
  {
    if s == "" then 0
    else
      var last := s[|s| - 1];
      assert IsDigit(last);
      10 * ValueOf(s[..|s| - 1]) + (last as int - '0' as int)
  }

  /** Reading inverts printing. */
  lemma {:induction false} DecimalRoundTrip(n: nat)
    ensures AllDigits(Decimal(n)) && Decimal(n) != "" && ValueOf(Decimal(n)) == n
  {
    if n >= 10 {
      DecimalRoundTrip(n / 10);
      var s := Decimal(n);
      assert s[..|s| - 1] == Decimal(n / 10);
    }
  }

  /** `n` in at least three digits. */
  function Padded(n: nat): string {
    var s := Decimal(n);
    if |s| == 1 then "00" + s else if |s| == 2 then "0" + s else s
  }

  lemma {:induction false} PaddedRoundTrip(n: nat)
    ensures AllDigits(Padded(n)) && ValueOf(Padded(n)) == n
  {
    DecimalRoundTrip(n);
    LeadingZero(Decimal(n));
    LeadingZero("0" + Decimal(n));
    assert "00" + Decimal(n) == "0" + ("0" + Decimal(n));
  }

  /** A number is printed without a leading zero, but for zero itself. */
  lemma {:induction false} DecimalHasNoLeadingZero(n: nat)
    ensures Decimal(n)[0] == '0' <==> n == 0
    ensures n < 10 <==> |Decimal(n)| == 1
    ensures n < 100 <==> |Decimal(n)| <= 2
  {
    if n >= 10 {
      DecimalHasNoLeadingZero(n / 10);
    }
  }

  /** Padding is to three digits, and no further. */
  lemma PaddedHasThreeDigits(n: nat)
    ensures |Padded(n)| >= 3
    ensures n < 1000 ==> |Padded(n)| == 3
    ensures n >= 100 ==> Padded(n) == Decimal(n)
    ensures Padded(7) == "007" && Padded(42) == "042" && Padded(1205) == "1205"
  {
    DecimalHasNoLeadingZero(n);
    if n >= 100 {
      DecimalHasNoLeadingZero(n / 10);
    }
    assert Decimal(1205) == Decimal(120) + "5" && Decimal(120) == Decimal(12) + "0" && Decimal(12) == "12";
  }

  lemma {:induction false} LeadingZero(s: string)
    requires AllDigits(s)
    ensures AllDigits("0" + s) && ValueOf("0" + s) == ValueOf(s)
  {
    var t := "0" + s;
    if s == "" {
      assert t[..|t| - 1] == "";
    } else {
      LeadingZero(s[..|s| - 1]);
      assert t[..|t| - 1] == "0" + s[..|s| - 1];
    }
  }
}
