/**
 * Decimal rendering of integers, as `strconv.Itoa` produces it, together with
 * the parser that undoes it. The service renders every numeric identifier it
 * returns with `Itoa`, and the broadcast registries are keyed by these strings.
 */
module Decimal {

  predicate IsDigit(c: char) { '0' <= c <= '9' }

  function DigitChar(d: nat): (c: char)
    requires d < 10
    ensures IsDigit(c) && c as int - '0' as int == d
  {
    ['0', '1', '2', '3', '4', '5', '6', '7', '8', '9'][d]
  }

  /** The digits of `n`, most significant first, with no leading zero. */
  function NatToString(n: nat): (s: string)
    ensures |s| > 0 && forall i :: 0 <= i < |s| ==> IsDigit(s[i])
    ensures |s| > 1 ==> s[0] != '0'
  {
    if n < 10 then [DigitChar(n)] else NatToString(n / 10) + [DigitChar(n % 10)]
  }

  /** A non-empty run of digits with no leading zero. */
  predicate Canonical(d: string) {
    && |d| > 0
    && (forall i :: 0 <= i < |d| ==> IsDigit(d[i]))
    && (|d| > 1 ==> d[0] != '0')
  }

  /**
   * `strconv.Itoa`: a minus sign exactly for negative numbers, then the
   * digits with no leading zero; zero is "0" and never "-0".
   */
  function Itoa(n: int): (s: string)
    ensures n >= 0 ==> Canonical(s)
    ensures n < 0 ==> |s| > 1 && s[0] == '-' && Canonical(s[1..]) && s[1..] != "0"
    ensures n == 0 <==> s == "0"
  {
    if n < 0 then "-" + NatToString(-n) else NatToString(n)
  }

  /** The value of a string of digits; the partner of NatToString. */
  function ParseNat(s: string): nat {
    if s == [] then 0
    else
      var d := s[|s| - 1] as int - '0' as int;
      ParseNat(s[..|s| - 1]) * 10 + (if 0 <= d < 10 then d else 0)
  }

  /** The value of an optionally signed decimal string; the partner of Itoa. */
  function Atoi(s: string): int {
    if |s| > 0 && s[0] == '-' then -(ParseNat(s[1..]) as int) else ParseNat(s)
  }

  lemma {:induction false} ParseNatToString(n: nat)
    ensures ParseNat(NatToString(n)) == n
  {
    if n >= 10 {
      var s := NatToString(n / 10);
      var t := s + [DigitChar(n % 10)];
      assert t[..|t| - 1] == s;
      ParseNatToString(n / 10);
    }
  }

  /** Reading back what Itoa wrote gives the original number. */
  lemma ItoaRoundTrip(n: int)
    ensures Atoi(Itoa(n)) == n
  {
    if n < 0 {
      var s := NatToString(-n);
      assert ("-" + s)[1..] == s;
      ParseNatToString(-n);
    } else {
      ParseNatToString(n);
      assert IsDigit(NatToString(n)[0]);
    }
  }

  /** Distinct numbers get distinct decimal strings. */
  lemma ItoaInjective(a: int, b: int)
    ensures Itoa(a) == Itoa(b) ==> a == b
  {
    ItoaRoundTrip(a);
    ItoaRoundTrip(b);
  }
}
