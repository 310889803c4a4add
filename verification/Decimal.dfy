/** Decimal strings: what `BigInt(text)` reads and what `bigint.toString()` writes, for values >= 0. */
module Decimal {

  predicate IsDigit(c: char) {
    '0' <= c <= '9'
  }

  predicate AllDigits(s: string) {
    forall i | 0 <= i < |s| :: IsDigit(s[i])
  }

  /** `/^[0-9]+$/` */
  predicate IsDecimal(s: string) {
    s != "" && AllDigits(s)
  }

  function DigitOf(c: char): (d: nat)
    requires IsDigit(c)
    ensures d < 10
  {
    c as int - '0' as int
  }

  function Digit(d: nat): (c: char)
    requires d < 10
    ensures IsDigit(c) && DigitOf(c) == d
  {
    "0123456789"[d]
  }

  function ToDecimal(n: nat): (s: string)
    ensures IsDecimal(s)
  {
    if n < 10 then [Digit(n)] else ToDecimal(n / 10) + [Digit(n % 10)]
  }

  function FromDecimal(s: string): nat
    requires AllDigits(s)
  {
    if s == "" then 0 else 10 * FromDecimal(s[..|s| - 1]) + DigitOf(s[|s| - 1])
  }

  lemma FromDecimalSnoc(s: string, c: char)
    requires AllDigits(s) && IsDigit(c)
    ensures FromDecimal(s + [c]) == 10 * FromDecimal(s) + DigitOf(c)
  {
    assert (s + [c])[..|s|] == s;
  }

  lemma {:induction false} PrintThenRead(n: nat)
    ensures FromDecimal(ToDecimal(n)) == n
  {
    if n < 10 {
      assert ToDecimal(n)[..0] == "";
    } else {
      PrintThenRead(n / 10);
      FromDecimalSnoc(ToDecimal(n / 10), Digit(n % 10));
    }
  }

  function Zeros(k: nat): (s: string)
    ensures |s| == k && AllDigits(s) && forall i | 0 <= i < k :: s[i] == '0'
  {
    seq(k, _ => '0')
  }

  /** `text.padStart(width, "0")` */
  function PadStart(s: string, width: nat): (r: string)
    ensures |r| == if |s| < width then width else |s|
    ensures AllDigits(s) ==> AllDigits(r)
  {
    if |s| < width then Zeros(width - |s|) + s else s
  }

  /** A number of fixed width, read and printed again, is the same digits. */
  lemma {:induction false} ReadThenPrint(s: string)
    requires IsDecimal(s)
    ensures PadStart(ToDecimal(FromDecimal(s)), |s|) == s
  {
    var t, c := s[..|s| - 1], s[|s| - 1];
    var v := FromDecimal(s);
    assert Digit(DigitOf(c)) == c;
    if t == "" {
      assert s == [c] && FromDecimal("") == 0;
      assert v == DigitOf(c);
    } else {
      ReadThenPrint(t);
      var w := FromDecimal(t);
      assert v == 10 * w + DigitOf(c) && v / 10 == w && v % 10 == DigitOf(c);
      if v < 10 {
        assert w == 0 && t == Zeros(|t| - 1) + "0";
        assert t == Zeros(|t|);
        assert s == t + [c];
      } else {
        assert ToDecimal(v) == ToDecimal(w) + [c];
        assert s == t + [c];
      }
    }
  }

  predicate NoLeadingZero(s: string) {
    |s| > 1 ==> s[0] != '0'
  }

  lemma {:induction false} PrintedHasNoLeadingZero(n: nat)
    ensures NoLeadingZero(ToDecimal(n)) && (n > 0 ==> ToDecimal(n)[0] != '0')
  {
    if n >= 10 {
      PrintedHasNoLeadingZero(n / 10);
    } else if n > 0 {
      assert DigitOf(ToDecimal(n)[0]) == n;
    }
  }

  /** Without a leading zero a number has one spelling. */
  lemma {:induction false} CanonicalIsPrinted(s: string)
    requires IsDecimal(s) && NoLeadingZero(s)
    ensures ToDecimal(FromDecimal(s)) == s
  {
    ReadThenPrint(s);
    var printed := ToDecimal(FromDecimal(s));
    assert s[0] == PadStart(printed, |s|)[0];
    PrintedHasNoLeadingZero(FromDecimal(s));
  }
}
